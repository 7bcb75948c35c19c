/** The per-user, per-course progress record of CourseService and the rule
    a lesson-watch event applies to it (CourseService.updateLessonProgress),
    stated over values; the class in module CourseService keeps these
    records in its cache and applies the rule with loops. */
module CourseProgress {
  import opened Common

  // ---- course structure (what getCourseDetails returns) -----------------

  datatype Resource = Resource(kind: string, title: string, url: string)

  /** `duration` is the display string ("25 minutos"); the completion rule
      never reads it. */
  datatype Lesson = Lesson(id: string, title: string, duration: string, videoId: string, resources: seq<Resource>)

  datatype Module = Module(id: string, title: string, description: string, lessons: seq<Lesson>)

  /** `modules.reduce((total, module) => total + module.lessons.length, 0)`. */
  function TotalLessons(modules: seq<Module>): nat {
    if modules == [] then 0 else |modules[0].lessons| + TotalLessons(modules[1..])
  }

  // ---- the progress record ------------------------------------------------

  /** One lesson's entry. `quizResults` are kept as opaque entries; `duration`
      is absent until an event's data carries one, because Object.assign
      copies every key of the data onto the entry. Times are whole seconds. */
  datatype LessonProgress = LessonProgress(
    lessonId: string,
    completed: bool,
    watchTime: int,
    lastPosition: int,
    quizResults: seq<string>,
    duration: Option<int>)

  datatype ModuleProgress = ModuleProgress(moduleId: string, completed: bool, lessonProgress: seq<LessonProgress>)

  /** The record; the start and last-access timestamps are not modelled. */
  datatype Progress = Progress(
    userId: string,
    courseId: string,
    completedLessons: seq<string>,
    moduleProgress: seq<ModuleProgress>,
    overallProgress: real,
    certificateIssued: bool)

  /** The `data` of a lesson event: each key may be absent. */
  datatype LessonData = LessonData(
    watchTime: Option<int>,
    lastPosition: Option<int>,
    quizResults: Option<seq<string>>,
    duration: Option<int>,
    completed: Option<bool>)

  // ---- initialisation -----------------------------------------------------

  function InitialLesson(l: Lesson): LessonProgress {
    LessonProgress(l.id, false, 0, 0, [], None)
  }

  function InitialModule(m: Module): ModuleProgress {
    ModuleProgress(m.id, false, seq(|m.lessons|, j requires 0 <= j < |m.lessons| => InitialLesson(m.lessons[j])))
  }

  /** The entries mirror the course: module by module, lesson by lesson, in order. */
  ghost predicate Mirrors(mods: seq<ModuleProgress>, modules: seq<Module>) {
    && |mods| == |modules|
    && forall i :: 0 <= i < |mods| ==>
         && mods[i].moduleId == modules[i].id
         && |mods[i].lessonProgress| == |modules[i].lessons|
         && forall j :: 0 <= j < |mods[i].lessonProgress| ==>
              mods[i].lessonProgress[j].lessonId == modules[i].lessons[j].id
  }

  /** initializeUserProgress's record: nothing completed, every counter zero,
      the entries mirroring the course's modules and lessons. */
  function InitialProgress(userId: string, courseId: string, modules: seq<Module>): (p: Progress)
    ensures p.userId == userId && p.courseId == courseId
    ensures p.completedLessons == [] && p.overallProgress == 0.0 && !p.certificateIssued
    ensures Mirrors(p.moduleProgress, modules)
    ensures forall i :: 0 <= i < |p.moduleProgress| ==> !p.moduleProgress[i].completed
    ensures forall i, j :: 0 <= i < |p.moduleProgress| && 0 <= j < |p.moduleProgress[i].lessonProgress| ==>
              var l := p.moduleProgress[i].lessonProgress[j];
              !l.completed && l.watchTime == 0 && l.lastPosition == 0 && l.quizResults == []
  {
    Progress(userId, courseId, [],
      seq(|modules|, i requires 0 <= i < |modules| => InitialModule(modules[i])),
      0.0, false)
  }

  // ---- locating a lesson (the nested loop with break) -------------------

  /** Some entry of some module has this lesson id. */
  ghost predicate HasLesson(mods: seq<ModuleProgress>, lessonId: string) {
    exists i, j :: 0 <= i < |mods| && 0 <= j < |mods[i].lessonProgress| &&
                   mods[i].lessonProgress[j].lessonId == lessonId
  }

  /** (i, j) is where the nested search stops: the id matches there and at
      no earlier lesson of module i and in no earlier module. */
  ghost predicate IsFirstLesson(mods: seq<ModuleProgress>, lessonId: string, i: nat, j: nat) {
    && i < |mods| && j < |mods[i].lessonProgress|
    && mods[i].lessonProgress[j].lessonId == lessonId
    && (forall j' :: 0 <= j' < j ==> mods[i].lessonProgress[j'].lessonId != lessonId)
    && (forall i', j' :: 0 <= i' < i && 0 <= j' < |mods[i'].lessonProgress| ==>
          mods[i'].lessonProgress[j'].lessonId != lessonId)
  }

  function IndexOfLesson(ls: seq<LessonProgress>, lessonId: string, from: nat): (r: Option<nat>)
    requires from <= |ls|
    requires forall j :: 0 <= j < from ==> ls[j].lessonId != lessonId
    ensures r.None? ==> forall j :: 0 <= j < |ls| ==> ls[j].lessonId != lessonId
    ensures r.Some? ==> r.value < |ls| && ls[r.value].lessonId == lessonId &&
                        forall j :: 0 <= j < r.value ==> ls[j].lessonId != lessonId
    decreases |ls| - from
  {
    if from == |ls| then None
    else if ls[from].lessonId == lessonId then Some(from)
    else IndexOfLesson(ls, lessonId, from + 1)
  }

  function LocateFrom(mods: seq<ModuleProgress>, lessonId: string, from: nat): (r: Option<(nat, nat)>)
    requires from <= |mods|
    requires forall i, j :: 0 <= i < from && 0 <= j < |mods[i].lessonProgress| ==>
               mods[i].lessonProgress[j].lessonId != lessonId
    ensures r.None? ==> !HasLesson(mods, lessonId)
    ensures r.Some? ==> IsFirstLesson(mods, lessonId, r.value.0, r.value.1)
    decreases |mods| - from
  {
    if from == |mods| then None
    else match IndexOfLesson(mods[from].lessonProgress, lessonId, 0)
      case Some(j) => Some((from, j))
      case None => LocateFrom(mods, lessonId, from + 1)
  }

  /** Where the nested search of updateLessonProgress finds the lesson. */
  function LocateLesson(mods: seq<ModuleProgress>, lessonId: string): (r: Option<(nat, nat)>)
    ensures r.None? <==> !HasLesson(mods, lessonId)
    ensures r.Some? ==> IsFirstLesson(mods, lessonId, r.value.0, r.value.1)
  {
    LocateFrom(mods, lessonId, 0)
  }

  // ---- the event rule -----------------------------------------------------

  /** `Object.assign(lessonProgress, data)`: every key present in the data
      overwrites the entry's field. */
  function Merge(l: LessonProgress, d: LessonData): (r: LessonProgress)
    ensures r.lessonId == l.lessonId
    ensures d == LessonData(None, None, None, None, None) ==> r == l
  {
    LessonProgress(
      l.lessonId,
      if d.completed.Some? then d.completed.value else l.completed,
      if d.watchTime.Some? then d.watchTime.value else l.watchTime,
      if d.lastPosition.Some? then d.lastPosition.value else l.lastPosition,
      if d.quizResults.Some? then d.quizResults.value else l.quizResults,
      if d.duration.Some? then d.duration else l.duration)
  }

  /** `data.watchTime && data.watchTime >= 0.9 * data.duration`, exactly over
      integer seconds: a zero or missing watch time never completes, and a
      missing duration makes the comparison false (it is NaN in JavaScript). */
  predicate CompletesLesson(d: LessonData)
    ensures CompletesLesson(d) ==>
              d.watchTime.Some? && d.duration.Some? && (d.duration.value >= 0 ==> d.watchTime.value > 0)
    ensures (d.watchTime.Some? && d.duration.Some? && d.watchTime.value > 0 &&
             d.watchTime.value >= d.duration.value) ==> CompletesLesson(d)
  {
    && d.watchTime.Some? && d.watchTime.value != 0
    && d.duration.Some?
    && 10 * d.watchTime.value >= 9 * d.duration.value
  }

  predicate AllLessonsCompleted(ls: seq<LessonProgress>) {
    forall j :: 0 <= j < |ls| ==> ls[j].completed
  }

  /** Every module's flag recomputed from its lessons. */
  function RefreshModuleFlags(mods: seq<ModuleProgress>): (r: seq<ModuleProgress>)
    ensures |r| == |mods|
    ensures forall i :: 0 <= i < |r| ==>
              r[i] == mods[i].(completed := AllLessonsCompleted(mods[i].lessonProgress))
  {
    seq(|mods|, i requires 0 <= i < |mods| => mods[i].(completed := AllLessonsCompleted(mods[i].lessonProgress)))
  }

  /** `(completed / total) * 100`: never negative, at most 100 exactly when
      no more than the total is completed, and 100 only for the total. */
  function Percent(completed: nat, total: nat): (r: real)
    requires total > 0
    ensures 0.0 <= r
    ensures r <= 100.0 <==> completed <= total
    ensures r == 100.0 <==> completed == total
  {
    ShareBounds(completed as real, total as real);
    (completed as real / total as real) * 100.0
  }

  /** A share of a positive whole is not negative, at most 1 for a part, and
      1 only for the whole. */
  lemma ShareBounds(k: real, n: real)
    requires 0.0 <= k && n > 0.0
    ensures 0.0 <= k / n
    ensures k / n <= 1.0 <==> k <= n
    ensures k / n == 1.0 <==> k == n
  {
    var x := k / n;
    assert x * n == k;
    ScaleByPositive(x, n);
  }

  function SetLesson(mods: seq<ModuleProgress>, i: nat, j: nat, l: LessonProgress): seq<ModuleProgress>
    requires i < |mods| && j < |mods[i].lessonProgress|
  {
    mods[i := mods[i].(lessonProgress := mods[i].lessonProgress[j := l])]
  }

  /** The entry the event leaves at the located lesson: the data merged in,
      then `completed` set when the threshold is met. */
  function UpdatedLesson(l: LessonProgress, d: LessonData): LessonProgress {
    if CompletesLesson(d) then Merge(l, d).(completed := true) else Merge(l, d)
  }

  /** `completedLessons` after the event: the id appended if the threshold is
      met and it is not there yet. */
  function UpdatedCompleted(completed: seq<string>, lessonId: string, d: LessonData): seq<string> {
    if CompletesLesson(d) && lessonId !in completed then completed + [lessonId] else completed
  }

  /** updateLessonProgress on a record, `totalLessons` being the lesson count
      of the course's current details. */
  function ApplyLessonEvent(p: Progress, lessonId: string, d: LessonData, totalLessons: nat): (r: Result<Progress>)
    requires totalLessons > 0
    ensures r.Err? ==> r.message == "Lesson not found in course progress"
    ensures r.Ok? ==> && r.value.userId == p.userId && r.value.courseId == p.courseId
                      && |r.value.moduleProgress| == |p.moduleProgress|
                      && r.value.certificateIssued == p.certificateIssued
  {
    match LocateLesson(p.moduleProgress, lessonId)
    case None => Err("Lesson not found in course progress")
    case Some((i, j)) =>
      var completed := UpdatedCompleted(p.completedLessons, lessonId, d);
      var mods := SetLesson(p.moduleProgress, i, j, UpdatedLesson(p.moduleProgress[i].lessonProgress[j], d));
      Ok(p.(completedLessons := completed,
            moduleProgress := RefreshModuleFlags(mods),
            overallProgress := Percent(|completed|, totalLessons)))
  }

  // ---- what the rule promises ---------------------------------------------

  /** The event at a lesson located at `(i, j)`, written out. */
  lemma ApplyLessonEventAt(p: Progress, lessonId: string, d: LessonData, totalLessons: nat, i: nat, j: nat)
    requires totalLessons > 0
    requires LocateLesson(p.moduleProgress, lessonId) == Some((i, j))
    ensures i < |p.moduleProgress| && j < |p.moduleProgress[i].lessonProgress|
    ensures ApplyLessonEvent(p, lessonId, d, totalLessons) ==
              Ok(p.(completedLessons := UpdatedCompleted(p.completedLessons, lessonId, d),
                    moduleProgress := RefreshModuleFlags(SetLesson(p.moduleProgress, i, j,
                                        UpdatedLesson(p.moduleProgress[i].lessonProgress[j], d))),
                    overallProgress := Percent(|UpdatedCompleted(p.completedLessons, lessonId, d)|, totalLessons)))
  {
  }

  /** The event fails, with the source's message, exactly when no module has
      the lesson. */
  lemma LessonNotFound(p: Progress, lessonId: string, d: LessonData, totalLessons: nat)
    requires totalLessons > 0
    ensures ApplyLessonEvent(p, lessonId, d, totalLessons).Err? <==> !HasLesson(p.moduleProgress, lessonId)
    ensures ApplyLessonEvent(p, lessonId, d, totalLessons).Err? ==>
              ApplyLessonEvent(p, lessonId, d, totalLessons).message == "Lesson not found in course progress"
  {
  }

  /** On success only the located entry changes (besides the module flags);
      it holds the data merged in, and is completed when the threshold is met. */
  lemma EventUpdatesOnlyThatLesson(p: Progress, lessonId: string, d: LessonData, totalLessons: nat)
    requires totalLessons > 0
    requires HasLesson(p.moduleProgress, lessonId)
    ensures var r := ApplyLessonEvent(p, lessonId, d, totalLessons);
      && r.Ok?
      && var (i, j) := LocateLesson(p.moduleProgress, lessonId).value;
      && var mods, mods' := p.moduleProgress, r.value.moduleProgress;
      && |mods'| == |mods|
      && (forall m :: 0 <= m < |mods| ==>
            mods'[m].moduleId == mods[m].moduleId &&
            |mods'[m].lessonProgress| == |mods[m].lessonProgress| &&
            forall l :: 0 <= l < |mods[m].lessonProgress| && (m, l) != (i, j) ==>
              mods'[m].lessonProgress[l] == mods[m].lessonProgress[l])
      && mods'[i].lessonProgress[j] == UpdatedLesson(mods[i].lessonProgress[j], d)
      && mods'[i].lessonProgress[j].lessonId == lessonId
      && (CompletesLesson(d) ==> mods'[i].lessonProgress[j].completed)
      && r.value.userId == p.userId && r.value.courseId == p.courseId
      && r.value.certificateIssued == p.certificateIssued
  {
  }

  /** The threshold rule only ever sets `completed`; an entry already
      completed stays completed unless the data itself carries `completed: false`. */
  lemma CompletionNeverUndone(l: LessonProgress, d: LessonData)
    requires l.completed && d.completed != Some(false)
    ensures UpdatedLesson(l, d).completed
  {
  }

  /** `completedLessons` grows by at most the event's lesson, which is
      appended exactly when the threshold is met and it was absent; a
      duplicate-free list stays duplicate-free. */
  lemma CompletedLessonsAppendOnly(p: Progress, lessonId: string, d: LessonData, totalLessons: nat)
    requires totalLessons > 0
    requires HasLesson(p.moduleProgress, lessonId)
    ensures var cl, cl' := p.completedLessons, ApplyLessonEvent(p, lessonId, d, totalLessons).value.completedLessons;
      && (cl' == cl || cl' == cl + [lessonId])
      && (cl' != cl <==> CompletesLesson(d) && lessonId !in cl)
      && (CompletesLesson(d) ==> lessonId in cl')
      && (NoDuplicates(cl) ==> NoDuplicates(cl'))
  {
  }

  /** After every successful event each module's flag is "all its lessons are completed". */
  lemma ModuleFlagsAfterEvent(p: Progress, lessonId: string, d: LessonData, totalLessons: nat)
    requires totalLessons > 0
    requires HasLesson(p.moduleProgress, lessonId)
    ensures var mods' := ApplyLessonEvent(p, lessonId, d, totalLessons).value.moduleProgress;
      forall m :: 0 <= m < |mods'| ==> (mods'[m].completed <==> AllLessonsCompleted(mods'[m].lessonProgress))
  {
  }

  // ---- the record invariant -----------------------------------------------

  /** The lesson ids of the entries, module after module. */
  function EntryIds(mods: seq<ModuleProgress>): (r: seq<string>)
  {
    if mods == [] then []
    else seq(|mods[0].lessonProgress|, j requires 0 <= j < |mods[0].lessonProgress| => mods[0].lessonProgress[j].lessonId)
         + EntryIds(mods[1..])
  }

  lemma {:induction false} EntryIdsMeaning(mods: seq<ModuleProgress>, id: string)
    ensures id in EntryIds(mods) <==> HasLesson(mods, id)
  {
    if mods != [] {
      EntryIdsMeaning(mods[1..], id);
      var head := seq(|mods[0].lessonProgress|, j requires 0 <= j < |mods[0].lessonProgress| => mods[0].lessonProgress[j].lessonId);
      assert EntryIds(mods) == head + EntryIds(mods[1..]);
      if HasLesson(mods, id) {
        var i, j :| 0 <= i < |mods| && 0 <= j < |mods[i].lessonProgress| && mods[i].lessonProgress[j].lessonId == id;
        if i == 0 {
          assert head[j] == id;
        } else {
          assert mods[1..][i - 1].lessonProgress[j].lessonId == id;
        }
      }
      if id in head {
        var j :| 0 <= j < |head| && head[j] == id;
        assert mods[0].lessonProgress[j].lessonId == id;
      }
      if HasLesson(mods[1..], id) {
        var i, j :| 0 <= i < |mods[1..]| && 0 <= j < |mods[1..][i].lessonProgress| && mods[1..][i].lessonProgress[j].lessonId == id;
        assert mods[i + 1].lessonProgress[j].lessonId == id;
      }
    }
  }

  lemma {:induction false} EntryIdsCount(mods: seq<ModuleProgress>, modules: seq<Module>)
    requires Mirrors(mods, modules)
    ensures |EntryIds(mods)| == TotalLessons(modules)
  {
    if mods != [] {
      assert Mirrors(mods[1..], modules[1..]);
      EntryIdsCount(mods[1..], modules[1..]);
    }
  }

  /** What every stored record satisfies: it mirrors its course, its
      completed list has no duplicates and names only lessons of the course,
      and its percentage matches the list. */
  ghost predicate ProgressInvariant(p: Progress, modules: seq<Module>) {
    && TotalLessons(modules) > 0
    && Mirrors(p.moduleProgress, modules)
    && NoDuplicates(p.completedLessons)
    && (forall k :: 0 <= k < |p.completedLessons| ==> HasLesson(p.moduleProgress, p.completedLessons[k]))
    && p.overallProgress == Percent(|p.completedLessons|, TotalLessons(modules))
  }

  /** A fresh record satisfies the invariant. */
  lemma InitialProgressInvariant(userId: string, courseId: string, modules: seq<Module>)
    requires TotalLessons(modules) > 0
    ensures ProgressInvariant(InitialProgress(userId, courseId, modules), modules)
  {
  }

  lemma MirrorsAfterEvent(p: Progress, lessonId: string, d: LessonData, modules: seq<Module>)
    requires TotalLessons(modules) > 0
    requires Mirrors(p.moduleProgress, modules)
    requires HasLesson(p.moduleProgress, lessonId)
    ensures Mirrors(ApplyLessonEvent(p, lessonId, d, TotalLessons(modules)).value.moduleProgress, modules)
  {
    EventUpdatesOnlyThatLesson(p, lessonId, d, TotalLessons(modules));
  }

  lemma HasLessonAfterEvent(p: Progress, lessonId: string, d: LessonData, totalLessons: nat, id: string)
    requires totalLessons > 0
    requires HasLesson(p.moduleProgress, lessonId)
    requires HasLesson(p.moduleProgress, id) || id == lessonId
    ensures HasLesson(ApplyLessonEvent(p, lessonId, d, totalLessons).value.moduleProgress, id)
  {
    EventUpdatesOnlyThatLesson(p, lessonId, d, totalLessons);
    var mods, mods' := p.moduleProgress, ApplyLessonEvent(p, lessonId, d, totalLessons).value.moduleProgress;
    var (li, lj) := LocateLesson(mods, lessonId).value;
    if id == lessonId {
      assert mods'[li].lessonProgress[lj].lessonId == id;
    } else {
      var i, j :| 0 <= i < |mods| && 0 <= j < |mods[i].lessonProgress| && mods[i].lessonProgress[j].lessonId == id;
      assert (i, j) != (li, lj);
      assert mods'[i].lessonProgress[j].lessonId == id;
    }
  }

  /** A successful event keeps the invariant, with the course's current
      lesson count as the denominator. */
  lemma EventPreservesInvariant(p: Progress, lessonId: string, d: LessonData, modules: seq<Module>)
    requires ProgressInvariant(p, modules)
    requires HasLesson(p.moduleProgress, lessonId)
    ensures ProgressInvariant(ApplyLessonEvent(p, lessonId, d, TotalLessons(modules)).value, modules)
  {
    var total := TotalLessons(modules);
    var p' := ApplyLessonEvent(p, lessonId, d, total).value;
    MirrorsAfterEvent(p, lessonId, d, modules);
    CompletedLessonsAppendOnly(p, lessonId, d, total);
    forall k | 0 <= k < |p'.completedLessons| ensures HasLesson(p'.moduleProgress, p'.completedLessons[k]) {
      var id := p'.completedLessons[k];
      if k < |p.completedLessons| {
        HasLessonAfterEvent(p, lessonId, d, total, id);
      } else {
        HasLessonAfterEvent(p, lessonId, d, total, lessonId);
      }
    }
  }

  /** A record satisfying the invariant has at most as many completed
      lessons as the course has lessons. */
  lemma CompletedWithinCourse(p: Progress, modules: seq<Module>)
    requires ProgressInvariant(p, modules)
    ensures |p.completedLessons| <= TotalLessons(modules)
  {
    forall x | x in p.completedLessons ensures x in EntryIds(p.moduleProgress) {
      EntryIdsMeaning(p.moduleProgress, x);
    }
    NoDuplicatesBounded(p.completedLessons, EntryIds(p.moduleProgress));
    EntryIdsCount(p.moduleProgress, modules);
  }

  /** The overall percentage of a record satisfying the invariant lies in [0, 100]. */
  lemma OverallProgressInRange(p: Progress, modules: seq<Module>)
    requires ProgressInvariant(p, modules)
    ensures 0.0 <= p.overallProgress <= 100.0
    ensures p.overallProgress == 100.0 <==> |p.completedLessons| == TotalLessons(modules)
  {
    CompletedWithinCourse(p, modules);
  }

  /** `p'` is `p` after an event that counted `lessonId`: the id appended,
      the percentage the new count over the total, every entry's lesson id
      kept, every other lesson's entry unchanged, and every module flag
      "all its lessons are completed". */
  ghost predicate CountedLesson(p: Progress, lessonId: string, totalLessons: nat, p': Progress)
    requires totalLessons > 0
  {
    && p'.completedLessons == p.completedLessons + [lessonId]
    && p'.overallProgress == Percent(|p.completedLessons| + 1, totalLessons)
    && |p'.moduleProgress| == |p.moduleProgress|
    && (forall m :: 0 <= m < |p.moduleProgress| ==> SameIdsOtherwiseUntouched(p.moduleProgress[m], p'.moduleProgress[m], lessonId))
    && (forall m :: 0 <= m < |p'.moduleProgress| ==>
          (p'.moduleProgress[m].completed <==> AllLessonsCompleted(p'.moduleProgress[m].lessonProgress)))
  }

  /** `m'` has the entries of `m` with the same ids, and every entry of
      another lesson unchanged. */
  predicate SameIdsOtherwiseUntouched(m: ModuleProgress, m': ModuleProgress, lessonId: string) {
    && |m'.lessonProgress| == |m.lessonProgress|
    && forall l :: 0 <= l < |m.lessonProgress| ==>
         && m'.lessonProgress[l].lessonId == m.lessonProgress[l].lessonId
         && (m.lessonProgress[l].lessonId != lessonId ==> m'.lessonProgress[l] == m.lessonProgress[l])
  }

  /** An event that meets the threshold for a lesson not yet counted counts it. */
  lemma CompletingEvent(p: Progress, lessonId: string, d: LessonData, totalLessons: nat)
    requires totalLessons > 0
    requires HasLesson(p.moduleProgress, lessonId)
    requires CompletesLesson(d) && lessonId !in p.completedLessons
    ensures ApplyLessonEvent(p, lessonId, d, totalLessons).Ok?
    ensures CountedLesson(p, lessonId, totalLessons, ApplyLessonEvent(p, lessonId, d, totalLessons).value)
  {
    EventUpdatesOnlyThatLesson(p, lessonId, d, totalLessons);
    CompletedLessonsAppendOnly(p, lessonId, d, totalLessons);
    ModuleFlagsAfterEvent(p, lessonId, d, totalLessons);
  }

  /** CompletingEvent for the lesson of the entry at `(m, l)`. */
  lemma CountingAt(p: Progress, m: nat, l: nat, d: LessonData, totalLessons: nat)
    requires totalLessons > 0
    requires m < |p.moduleProgress| && l < |p.moduleProgress[m].lessonProgress|
    requires CompletesLesson(d) && p.moduleProgress[m].lessonProgress[l].lessonId !in p.completedLessons
    ensures var id := p.moduleProgress[m].lessonProgress[l].lessonId;
      && ApplyLessonEvent(p, id, d, totalLessons).Ok?
      && CountedLesson(p, id, totalLessons, ApplyLessonEvent(p, id, d, totalLessons).value)
  {
    CompletingEvent(p, p.moduleProgress[m].lessonProgress[l].lessonId, d, totalLessons);
  }

  /** A counted event keeps the lesson id of the entry at `(m, l)`. */
  lemma KeptId(p: Progress, lessonId: string, totalLessons: nat, p': Progress, m: nat, l: nat)
    requires totalLessons > 0
    requires CountedLesson(p, lessonId, totalLessons, p')
    requires m < |p.moduleProgress| && l < |p.moduleProgress[m].lessonProgress|
    ensures m < |p'.moduleProgress| && l < |p'.moduleProgress[m].lessonProgress|
    ensures p'.moduleProgress[m].lessonProgress[l].lessonId == p.moduleProgress[m].lessonProgress[l].lessonId
  {
    assert SameIdsOtherwiseUntouched(p.moduleProgress[m], p'.moduleProgress[m], lessonId);
  }

  /** `p0` is a fresh record of two modules of three entries, with
      distinct lesson ids: `a`, `b` the first two of the first module, `x`
      its third, `c` the first of the second module, `y` its second. */
  ghost predicate FreshTwoByThree(p0: Progress, a: string, b: string, c: string, x: string, y: string) {
    && p0.completedLessons == []
    && |p0.moduleProgress| == 2
    && |p0.moduleProgress[0].lessonProgress| == 3 && |p0.moduleProgress[1].lessonProgress| == 3
    && !p0.moduleProgress[0].lessonProgress[2].completed && !p0.moduleProgress[1].lessonProgress[1].completed
    && a == p0.moduleProgress[0].lessonProgress[0].lessonId && b == p0.moduleProgress[0].lessonProgress[1].lessonId
    && x == p0.moduleProgress[0].lessonProgress[2].lessonId
    && c == p0.moduleProgress[1].lessonProgress[0].lessonId && y == p0.moduleProgress[1].lessonProgress[1].lessonId
    && a != b && a != c && b != c
    && x != a && x != b && x != c && y != a && y != b && y != c
  }

  /** Three of six lessons counted in the order `a`, `b`, `c`: 50 percent,
      and neither of the two modules completed. */
  ghost predicate HalfwayThrough(p: Progress, a: string, b: string, c: string) {
    && p.completedLessons == [a, b, c]
    && p.overallProgress == 50.0
    && |p.moduleProgress| == 2
    && !p.moduleProgress[0].completed && !p.moduleProgress[1].completed
  }

  /** Counting `a`, `b`, then `c` on such a record leaves `x` and `y` open. */
  lemma HalfwayRecords(p0: Progress, p1: Progress, p2: Progress, p3: Progress,
                       a: string, b: string, c: string, x: string, y: string)
    requires FreshTwoByThree(p0, a, b, c, x, y)
    requires CountedLesson(p0, a, 6, p1) && CountedLesson(p1, b, 6, p2) && CountedLesson(p2, c, 6, p3)
    ensures HalfwayThrough(p3, a, b, c)
  {
    assert SameIdsOtherwiseUntouched(p0.moduleProgress[0], p1.moduleProgress[0], a);
    assert SameIdsOtherwiseUntouched(p0.moduleProgress[1], p1.moduleProgress[1], a);
    assert SameIdsOtherwiseUntouched(p1.moduleProgress[0], p2.moduleProgress[0], b);
    assert SameIdsOtherwiseUntouched(p1.moduleProgress[1], p2.moduleProgress[1], b);
    assert SameIdsOtherwiseUntouched(p2.moduleProgress[0], p3.moduleProgress[0], c);
    assert SameIdsOtherwiseUntouched(p2.moduleProgress[1], p3.moduleProgress[1], c);
    assert p3.overallProgress == Percent(3, 6);
    assert !p3.moduleProgress[0].lessonProgress[2].completed;
    assert !p3.moduleProgress[1].lessonProgress[1].completed;
  }

  /** The third event, on `c`, after `a` and `b` were counted. */
  lemma ThirdEvent(p0: Progress, p1: Progress, p2: Progress, d: LessonData,
                   a: string, b: string, c: string, x: string, y: string)
    requires FreshTwoByThree(p0, a, b, c, x, y) && CompletesLesson(d)
    requires CountedLesson(p0, a, 6, p1) && CountedLesson(p1, b, 6, p2)
    ensures var r3 := ApplyLessonEvent(p2, c, d, 6);
      r3.Ok? && HalfwayThrough(r3.value, a, b, c)
  {
    KeptId(p0, a, 6, p1, 1, 0);
    KeptId(p1, b, 6, p2, 1, 0);
    assert p2.completedLessons == [a, b];
    CountingAt(p2, 1, 0, d, 6);
    HalfwayRecords(p0, p1, p2, ApplyLessonEvent(p2, c, d, 6).value, a, b, c, x, y);
  }

  /** The second event, on `b`, after `a` was counted, and then the third. */
  lemma SecondEvent(p0: Progress, p1: Progress, d: LessonData, a: string, b: string, c: string, x: string, y: string)
    requires FreshTwoByThree(p0, a, b, c, x, y) && CompletesLesson(d)
    requires CountedLesson(p0, a, 6, p1)
    ensures var r2 := ApplyLessonEvent(p1, b, d, 6);
      && r2.Ok?
      && var r3 := ApplyLessonEvent(r2.value, c, d, 6);
      && r3.Ok? && HalfwayThrough(r3.value, a, b, c)
  {
    KeptId(p0, a, 6, p1, 0, 1);
    assert p1.completedLessons == [a];
    CountingAt(p1, 0, 1, d, 6);
    ThirdEvent(p0, p1, ApplyLessonEvent(p1, b, d, 6).value, d, a, b, c, x, y);
  }

  /** On a fresh two-module record with three entries a module, events that
      meet the threshold for the first two lessons of the first module and
      the first of the second count three of six lessons, 50 percent, and
      complete neither module. */
  lemma TwoOfFirstOneOfSecond(p0: Progress, d: LessonData, a: string, b: string, c: string, x: string, y: string)
    requires FreshTwoByThree(p0, a, b, c, x, y) && CompletesLesson(d)
    ensures var r1 := ApplyLessonEvent(p0, a, d, 6);
      && r1.Ok?
      && var r2 := ApplyLessonEvent(r1.value, b, d, 6);
      && r2.Ok?
      && var r3 := ApplyLessonEvent(r2.value, c, d, 6);
      && r3.Ok? && HalfwayThrough(r3.value, a, b, c)
  {
    CountingAt(p0, 0, 0, d, 6);
    SecondEvent(p0, ApplyLessonEvent(p0, a, d, 6).value, d, a, b, c, x, y);
  }

  /** Multiplying by a positive number keeps the sign of `x` and the side of 1 it is on. */
  lemma ScaleByPositive(x: real, n: real)
    requires n > 0.0
    ensures x < 0.0 ==> x * n < 0.0
    ensures x > 1.0 ==> x * n > n
    ensures x < 1.0 ==> x * n < n
  {
  }

}
