/** The progress document of the tracker (`AppState` in client/src/hooks/use-store.ts), its seed
    catalogue, and the pure transformations the store applies to it: the day rollover on load and
    the named mutations. The store object that holds the document is in module Store. */
module StoreModel {
  import opened Common
  import opened Rounding
  import opened Dates

  /** A JavaScript number as it can appear in a topic's `progress`: an integer, or NaN (what
      `Math.round(0 / 0 * 100)` gives for a topic without subtopics). */
  datatype Num = Finite(value: int) | NaN

  datatype Subtopic = Subtopic(id: string, name: string, completed: bool)

  datatype Topic = Topic(
    id: int, name: string, slug: string, progress: Num, category: string, subtopics: seq<Subtopic>)

  datatype DailyTask = DailyTask(id: int, text: string, completed: bool, date: DateKey)

  datatype InterviewSubject = InterviewSubject(id: int, name: string, progress: int, confidence: int)

  /** A `Partial<InterviewSubject>`: the fields an update carries; an absent field is `None`. */
  datatype SubjectUpdate = SubjectUpdate(
    id: Option<int>, name: Option<string>, progress: Option<int>, confidence: Option<int>)

  /** The whole persisted document. */
  datatype AppState = AppState(
    topics: seq<Topic>,
    dailyTasks: seq<DailyTask>,
    interviewSubjects: seq<InterviewSubject>,
    streak: int,
    lastVisit: DateKey,
    notes: string)

  // ---------------------------------------------------------------------------------------------
  // Seed catalogue

  /** A topic of `INITIAL_TOPICS`: category DSA, progress 0, and one open subtopic per (id, name)
      pair. */
  function SeedTopic(id: int, name: string, slug: string, items: seq<(string, string)>): (t: Topic)
    ensures t.id == id && t.progress == Finite(0) && |t.subtopics| == |items|
    ensures forall j :: 0 <= j < |items| ==> !t.subtopics[j].completed
  {
    Topic(id, name, slug, Finite(0), "DSA",
      seq(|items|, j requires 0 <= j < |items| => Subtopic(items[j].0, items[j].1, false)))
  }

  const Sorting: Topic := SeedTopic(1, "Sorting", "sorting", [
    ("s1", "Bubble Sort"), ("s2", "Selection Sort"), ("s3", "Insertion Sort"),
    ("s4", "Merge Sort"), ("s5", "Quick Sort"), ("s6", "Heap Sort")])
  const BinarySearch: Topic := SeedTopic(2, "Binary Search", "binary-search", [
    ("bs1", "Iterative Implementation"), ("bs2", "Recursive Implementation"),
    ("bs3", "Lower Bound"), ("bs4", "Upper Bound")])
  const Recursion: Topic := SeedTopic(3, "Recursion", "recursion", [
    ("r1", "Basic Recursion"), ("r2", "Backtracking")])
  const LinkedList: Topic := SeedTopic(4, "Linked List", "linked-list", [
    ("ll1", "Singly Linked List"), ("ll2", "Doubly Linked List"), ("ll3", "Circular Linked List")])
  const StackQueue: Topic := SeedTopic(5, "Stack & Queue", "stack-queue", [
    ("sq1", "Stack using Array"), ("sq2", "Queue using Array"), ("sq3", "Stack using Linked List")])
  const Trees: Topic := SeedTopic(6, "Trees", "trees", [
    ("t1", "Traversals (In/Pre/Post)"), ("t2", "Binary Search Tree"), ("t3", "AVL Trees")])
  const Heaps: Topic := SeedTopic(7, "Heaps", "heaps", [
    ("h1", "Min Heap"), ("h2", "Max Heap"), ("h3", "Priority Queue")])
  const Hashing: Topic := SeedTopic(8, "Hashing", "hashing", [
    ("ha1", "HashMap Basics"), ("ha2", "HashSet Basics"), ("ha3", "Collision Handling")])
  const DynamicProgramming: Topic := SeedTopic(9, "Dynamic Programming", "dp", [
    ("dp1", "1D DP (Climbing Stairs)"), ("dp2", "2D DP (Grid Paths)"), ("dp3", "0/1 Knapsack")])
  const Arrays: Topic := SeedTopic(10, "Arrays", "arrays", [
    ("a1", "Array Basics"), ("a2", "2D Arrays"), ("a3", "Sliding Window")])

  /** `INITIAL_TOPICS`: ten DSA topics, every subtopic open, every progress 0. */
  const SeedTopics: seq<Topic> :=
    [Sorting, BinarySearch, Recursion, LinkedList, StackQueue, Trees, Heaps, Hashing,
     DynamicProgramming, Arrays]

  /** `INITIAL_TASKS` as built on the day `day`: the three default tasks, open, dated `day`. */
  function SeedTasks(day: int): seq<DailyTask>
  {
    [ DailyTask(1, "Solve 1 LeetCode Easy", false, KeyOf(day)),
      DailyTask(2, "Review yesterday's problem", false, KeyOf(day)),
      DailyTask(3, "Read 1 System Design article", false, KeyOf(day)) ]
  }

  /** `INITIAL_SUBJECTS`: five interview subjects with their starting progress and confidence. */
  const SeedSubjects: seq<InterviewSubject> := [
    InterviewSubject(1, "Operating Systems", 20, 2),
    InterviewSubject(2, "DBMS", 40, 3),
    InterviewSubject(3, "Computer Networks", 10, 1),
    InterviewSubject(4, "Object Oriented Programming", 80, 5),
    InterviewSubject(5, "System Design", 0, 1)
  ]

  /** The document of a first visit or a reset on `today`, with the seed tasks as they were dated
      when the module was loaded on `taskDay`: every topic's progress agrees with its subtopics,
      the three tasks are open, the streak starts at one, today is the last visit, no notes. */
  function SeedState(taskDay: int, today: int): (r: AppState)
    ensures AllProgressConsistent(r.topics)
    ensures |r.dailyTasks| == 3
    ensures forall i :: 0 <= i < 3 ==> !r.dailyTasks[i].completed && r.dailyTasks[i].date == KeyOf(taskDay)
    ensures r.streak == 1 && r.lastVisit == KeyOf(today) && r.notes == ""
  {
    SeedCatalogue(taskDay);
    AppState(SeedTopics, SeedTasks(taskDay), SeedSubjects, 1, KeyOf(today), "")
  }

  // ---------------------------------------------------------------------------------------------
  // Topic progress

  /** `subtopics.filter(st => st.completed).length`. */
  function CompletedCount(subs: seq<Subtopic>): (n: nat)
    ensures n <= |subs|
    ensures n == 0 <==> forall j :: 0 <= j < |subs| ==> !subs[j].completed
    ensures n == |subs| <==> forall j :: 0 <= j < |subs| ==> subs[j].completed
  {
    if subs == [] then 0
    else
      var rest := CompletedCount(subs[1..]);
      assert forall j :: 1 <= j < |subs| ==> subs[j] == subs[1..][j - 1];
      (if subs[0].completed then 1 else 0) + rest
  }

  /** `Math.round((completed / subtopics.length) * 100)`: a percentage for a non-empty list, 0 when
      nothing and 100 when everything is completed; NaN for an empty list. */
  function CompletionPercent(subs: seq<Subtopic>): (p: Num)
    ensures p.NaN? <==> subs == []
    ensures p.Finite? ==> 0 <= p.value <= 100
    ensures subs != [] && (forall j :: 0 <= j < |subs| ==> !subs[j].completed) ==> p == Finite(0)
    ensures subs != [] && (forall j :: 0 <= j < |subs| ==> subs[j].completed) ==> p == Finite(100)
  {
    if subs == [] then NaN
    else
      var c := CompletedCount(subs);
      RoundRatioBetween(100 * c, |subs|, 0, 100);
      RoundRatioExact(0, |subs|);
      RoundRatioExact(100, |subs|);
      Finite(RoundRatio(100 * c, |subs|))
  }

  /** A topic's cached `progress` agrees with its subtopics. */
  predicate ProgressConsistent(t: Topic)
  {
    t.progress == CompletionPercent(t.subtopics)
  }

  predicate AllProgressConsistent(topics: seq<Topic>)
  {
    forall i :: 0 <= i < |topics| ==> ProgressConsistent(topics[i])
  }

  /** The subtopic list with `completed` flipped on the entries whose id is `subtopicId`. */
  function FlipSubtopic(subs: seq<Subtopic>, subtopicId: string): (r: seq<Subtopic>)
    ensures |r| == |subs|
    ensures forall j :: 0 <= j < |subs| ==> r[j].id == subs[j].id && r[j].name == subs[j].name
    ensures forall j :: 0 <= j < |subs| ==> r[j].completed == (subs[j].completed != (subs[j].id == subtopicId))
  {
    seq(|subs|, j requires 0 <= j < |subs| =>
      if subs[j].id == subtopicId then subs[j].(completed := !subs[j].completed) else subs[j])
  }

  /** The new `topics` of `toggleSubtopic(topicId, subtopicId)`: on each topic with id `topicId` the
      named subtopic is flipped and the progress recomputed; every other topic, and every other
      field, is left as it was. Consistent progress stays consistent. */
  function ToggleSubtopic(topics: seq<Topic>, topicId: int, subtopicId: string): (r: seq<Topic>)
    ensures |r| == |topics|
    ensures forall i :: 0 <= i < |topics| && topics[i].id != topicId ==> r[i] == topics[i]
    ensures forall i :: 0 <= i < |topics| && topics[i].id == topicId ==>
      && r[i].subtopics == FlipSubtopic(topics[i].subtopics, subtopicId)
      && ProgressConsistent(r[i])
      && r[i].(subtopics := topics[i].subtopics, progress := topics[i].progress) == topics[i]
    ensures AllProgressConsistent(topics) ==> AllProgressConsistent(r)
  {
    seq(|topics|, i requires 0 <= i < |topics| =>
      if topics[i].id == topicId then
        var flipped := FlipSubtopic(topics[i].subtopics, subtopicId);
        topics[i].(subtopics := flipped, progress := CompletionPercent(flipped))
      else topics[i])
  }

  /** Flipping the same subtopic twice restores the list. */
  lemma FlipSubtopicTwice(subs: seq<Subtopic>, subtopicId: string)
    ensures FlipSubtopic(FlipSubtopic(subs, subtopicId), subtopicId) == subs
  {
    var twice := FlipSubtopic(FlipSubtopic(subs, subtopicId), subtopicId);
    forall j | 0 <= j < |subs| ensures twice[j] == subs[j] {
      var s := subs[j];
      assert twice[j] == Subtopic(s.id, s.name, s.completed);
    }
  }

  /** Toggling a subtopic twice restores every subtopic list, and restores the topics themselves when
      the targeted topics' progress was consistent beforehand. */
  lemma ToggleSubtopicTwice(topics: seq<Topic>, topicId: int, subtopicId: string)
    ensures var twice := ToggleSubtopic(ToggleSubtopic(topics, topicId, subtopicId), topicId, subtopicId);
      && |twice| == |topics|
      && forall i :: 0 <= i < |topics| ==> twice[i].subtopics == topics[i].subtopics
    ensures (forall i :: 0 <= i < |topics| && topics[i].id == topicId ==> ProgressConsistent(topics[i])) ==>
      ToggleSubtopic(ToggleSubtopic(topics, topicId, subtopicId), topicId, subtopicId) == topics
  {
    var once := ToggleSubtopic(topics, topicId, subtopicId);
    var twice := ToggleSubtopic(once, topicId, subtopicId);
    forall i | 0 <= i < |topics| ensures twice[i].subtopics == topics[i].subtopics {
      if topics[i].id == topicId {
        FlipSubtopicTwice(topics[i].subtopics, subtopicId);
      }
    }
    if forall i :: 0 <= i < |topics| && topics[i].id == topicId ==> ProgressConsistent(topics[i]) {
      forall i | 0 <= i < |topics| ensures twice[i] == topics[i] {
        if topics[i].id == topicId {
          FlipSubtopicTwice(topics[i].subtopics, subtopicId);
          assert twice[i].progress == topics[i].progress;
        }
      }
    }
  }

  // ---------------------------------------------------------------------------------------------
  // Daily tasks

  /** The new `dailyTasks` of `toggleDailyTask(taskId)`: `completed` is flipped on exactly the tasks
      with id `taskId`; nothing else about any task changes. */
  function ToggleTask(tasks: seq<DailyTask>, taskId: int): (r: seq<DailyTask>)
    ensures |r| == |tasks|
    ensures forall i :: 0 <= i < |tasks| ==>
      r[i].completed == (tasks[i].completed != (tasks[i].id == taskId))
    ensures forall i :: 0 <= i < |tasks| ==> r[i].(completed := tasks[i].completed) == tasks[i]
  {
    seq(|tasks|, i requires 0 <= i < |tasks| =>
      if tasks[i].id == taskId then tasks[i].(completed := !tasks[i].completed) else tasks[i])
  }

  /** Toggling a task is an involution. */
  lemma ToggleTaskTwice(tasks: seq<DailyTask>, taskId: int)
    ensures ToggleTask(ToggleTask(tasks, taskId), taskId) == tasks
  {
    var twice := ToggleTask(ToggleTask(tasks, taskId), taskId);
    forall i | 0 <= i < |tasks| ensures twice[i] == tasks[i] {
      var t := tasks[i];
      assert twice[i] == DailyTask(t.id, t.text, t.completed, t.date);
    }
  }

  /** `INITIAL_TASKS.map(t => ({ ...t, date }))`: the same tasks, re-dated. */
  function Redate(tasks: seq<DailyTask>, date: DateKey): (r: seq<DailyTask>)
    ensures |r| == |tasks|
    ensures forall i :: 0 <= i < |tasks| ==> r[i] == tasks[i].(date := date)
  {
    seq(|tasks|, i requires 0 <= i < |tasks| => tasks[i].(date := date))
  }

  // ---------------------------------------------------------------------------------------------
  // Interview subjects

  /** `{ ...sub, ...updates }`: a field the update carries replaces the subject's, any other is kept. */
  function ApplyUpdate(sub: InterviewSubject, u: SubjectUpdate): (r: InterviewSubject)
    ensures r.id == (if u.id.Some? then u.id.value else sub.id)
    ensures r.name == (if u.name.Some? then u.name.value else sub.name)
    ensures r.progress == (if u.progress.Some? then u.progress.value else sub.progress)
    ensures r.confidence == (if u.confidence.Some? then u.confidence.value else sub.confidence)
  {
    InterviewSubject(
      u.id.GetOr(sub.id), u.name.GetOr(sub.name), u.progress.GetOr(sub.progress),
      u.confidence.GetOr(sub.confidence))
  }

  /** The new `interviewSubjects` of `updateSubject(id, updates)`: only subjects with id `id` are
      touched, and each of them gets exactly the fields `updates` carries. */
  function UpdateSubject(subjects: seq<InterviewSubject>, id: int, u: SubjectUpdate): (r: seq<InterviewSubject>)
    ensures |r| == |subjects|
    ensures forall i :: 0 <= i < |subjects| && subjects[i].id != id ==> r[i] == subjects[i]
    ensures forall i :: 0 <= i < |subjects| && subjects[i].id == id ==> r[i] == ApplyUpdate(subjects[i], u)
  {
    seq(|subjects|, i requires 0 <= i < |subjects| =>
      if subjects[i].id == id then ApplyUpdate(subjects[i], u) else subjects[i])
  }

  /** An update that carries no field changes nothing. */
  lemma EmptyUpdateIsIdentity(subjects: seq<InterviewSubject>, id: int)
    ensures UpdateSubject(subjects, id, SubjectUpdate(None, None, None, None)) == subjects
  {
  }

  /** Applying the same update twice is the same as applying it once, even when the update rewrites
      the subject's id. */
  lemma UpdateSubjectIdempotent(subjects: seq<InterviewSubject>, id: int, u: SubjectUpdate)
    ensures UpdateSubject(UpdateSubject(subjects, id, u), id, u) == UpdateSubject(subjects, id, u)
  {
    var once := UpdateSubject(subjects, id, u);
    var twice := UpdateSubject(once, id, u);
    forall i | 0 <= i < |subjects| ensures twice[i] == once[i] {
      if once[i].id == id {
        assert subjects[i].id == id;
        assert ApplyUpdate(once[i], u) == once[i];
      }
    }
  }

  // ---------------------------------------------------------------------------------------------
  // Day rollover

  /** The streak rule: a visit exactly one calendar day after the last adds one, a longer gap starts
      over at 1, and anything else (a date in the past, an unparsable last visit) keeps it. So a
      streak of at least one stays positive, grows exactly on a one-day gap, and (from above one)
      drops exactly on a longer gap. */
  function NextStreak(streak: int, diff: Option<int>): (n: int)
    ensures n == streak + 1 || n == 1 || n == streak
    ensures streak >= 1 ==> n >= 1
    ensures streak >= 1 ==> (n > streak <==> diff == Some(1))
    ensures streak > 1 ==> (n < streak <==> diff.Some? && diff.value > 1)
  {
    match diff
    case Some(d) => if d == 1 then streak + 1 else if d > 1 then 1 else streak
    case None => streak
  }

  /** What loading a stored document on `today` makes of it. On the day of the last visit the
      document comes back untouched; on any other day the streak rule is applied, the daily tasks
      are replaced by the seed tasks (built on `seedDay`) re-dated to today, and today becomes the
      last visit. Topics, subjects and notes are never touched. */
  function Rollover(s: AppState, seedDay: int, today: int): (r: AppState)
    ensures s.lastVisit == KeyOf(today) ==> r == s
    ensures s.lastVisit != KeyOf(today) ==>
      && r.dailyTasks == SeedTasks(today)
      && r.lastVisit == KeyOf(today)
    ensures r.topics == s.topics && r.interviewSubjects == s.interviewSubjects && r.notes == s.notes
  {
    if s.lastVisit == KeyOf(today) then s
    else
      var tasks := Redate(SeedTasks(seedDay), KeyOf(today));
      assert tasks == SeedTasks(today);
      s.(streak := NextStreak(s.streak, CalendarDaysSince(today, s.lastVisit)),
         dailyTasks := tasks,
         lastVisit := KeyOf(today))
  }

  /** The streak after loading, by the number of calendar days since the last visit. */
  lemma RolloverStreak(s: AppState, seedDay: int, today: int)
    ensures s.lastVisit == KeyOf(today - 1) ==> Rollover(s, seedDay, today).streak == s.streak + 1
    ensures s.lastVisit.DayKey? && s.lastVisit.ordinal < today - 1 ==> Rollover(s, seedDay, today).streak == 1
    ensures s.lastVisit.DayKey? && s.lastVisit.ordinal >= today ==> Rollover(s, seedDay, today).streak == s.streak
    ensures s.lastVisit.Unparsable? ==> Rollover(s, seedDay, today).streak == s.streak
  {
  }

  /** Loading twice on the same day is loading once: the second load finds today's key. */
  lemma RolloverIdempotent(s: AppState, seedDay: int, today: int)
    ensures Rollover(Rollover(s, seedDay, today), seedDay, today) == Rollover(s, seedDay, today)
  {
  }

  /** A positive streak stays positive across a load. */
  lemma RolloverKeepsStreakPositive(s: AppState, seedDay: int, today: int)
    requires s.streak >= 1
    ensures Rollover(s, seedDay, today).streak >= 1
  {
  }

  // ---------------------------------------------------------------------------------------------
  // The seed catalogue

  /** The seeds are what `use-store.ts` declares: ten topics with ids 1 to 10, each with at least one
      subtopic, none completed and progress consistent at 0; tasks 1, 2 and 3, open; five subjects
      with ids 1 to 5 and confidence between 1 and 5. */
  lemma SeedCatalogue(day: int)
    ensures |SeedTopics| == 10 && AllProgressConsistent(SeedTopics)
    ensures forall i :: 0 <= i < 10 ==>
      && SeedTopics[i].id == i + 1
      && SeedTopics[i].subtopics != []
      && SeedTopics[i].progress == Finite(0)
      && forall j :: 0 <= j < |SeedTopics[i].subtopics| ==> !SeedTopics[i].subtopics[j].completed
    ensures |SeedTasks(day)| == 3
    ensures forall i :: 0 <= i < 3 ==>
      SeedTasks(day)[i].id == i + 1 && !SeedTasks(day)[i].completed && SeedTasks(day)[i].date == KeyOf(day)
    ensures |SeedSubjects| == 5
    ensures forall i :: 0 <= i < 5 ==> SeedSubjects[i].id == i + 1 && 1 <= SeedSubjects[i].confidence <= 5
  {
    var ts := SeedTopics;
    forall i | 0 <= i < 10
      ensures ts[i].subtopics != [] && ProgressConsistent(ts[i])
    {
      assert CompletionPercent(ts[i].subtopics) == Finite(0);
    }
  }
}
