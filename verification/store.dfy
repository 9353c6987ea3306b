/** The `useStore` hook of client/src/hooks/use-store.ts as one state-holder object: the in-memory
    document (`null` until loaded) and the storage cell under the key 'dev-tracker-v1'. Each
    operation replaces the whole document and, like the hook's save effect, writes every non-null
    new document to storage. */
module Store {
  import opened Common
  import opened Dates
  import opened StoreModel

  class ProgressStore {
    /** The hook's `state`; `None` while loading. */
    var state: Option<AppState>
    /** What local storage holds under 'dev-tracker-v1'. */
    var stored: Option<AppState>
    /** The day the module was loaded, when `INITIAL_TASKS` got its dates. */
    const seedDay: int

    /** The save effect has run: a loaded document is also the stored one. */
    ghost predicate Persisted()
      reads this
    {
      state.Some? ==> stored == state
    }

    /** `isLoading: !state`. */
    function IsLoading(): (loading: bool)
      reads this
      ensures loading <==> state.None?
    {
      !state.Some?
    }

    /** The hook before its mount effect: no document yet, storage as found. */
    constructor (storage: Option<AppState>, moduleLoadDay: int)
      ensures state == None && stored == storage && seedDay == moduleLoadDay
      ensures Persisted()
    {
      state := None;
      stored := storage;
      seedDay := moduleLoadDay;
    }

    /** `setState(next)` followed by the save effect. */
    method Commit(next: AppState)
      modifies this
      ensures state == Some(next) && stored == Some(next)
    {
      state := Some(next);
      stored := state;
    }

    /** The mount effect on `today`: a stored document is rolled over to today, updated field by
        field as the hook does; with nothing stored the seed document is built. Either way the
        result becomes the state and is written back. */
    method Load(today: int)
      modifies this
      ensures old(stored).Some? ==> state == Some(Rollover(old(stored).value, seedDay, today))
      ensures old(stored).None? ==> state == Some(SeedState(seedDay, today))
      ensures Persisted() && state.Some?
    {
      match stored
      case Some(saved) =>
        var parsed := saved;
        if parsed.lastVisit != KeyOf(today) {
          var diff := CalendarDaysSince(today, parsed.lastVisit);
          if diff == Some(1) {
            parsed := parsed.(streak := parsed.streak + 1);
          } else if diff.Some? && diff.value > 1 {
            parsed := parsed.(streak := 1);
          }
          parsed := parsed.(dailyTasks := Redate(SeedTasks(seedDay), KeyOf(today)));
          parsed := parsed.(lastVisit := KeyOf(today));
        }
        Commit(parsed);
      case None =>
        var initial := SeedState(seedDay, today);
        Commit(initial);
    }

    /** `toggleSubtopic(topicId, subtopicId)`; nothing happens while no document is loaded. */
    method ToggleSubtopic(topicId: int, subtopicId: string)
      modifies this
      ensures old(state).None? ==> state == old(state) && stored == old(stored)
      ensures old(state).Some? ==>
        state == Some(old(state).value.(topics := StoreModel.ToggleSubtopic(old(state).value.topics, topicId, subtopicId)))
      ensures old(Persisted()) ==> Persisted()
    {
      if state.None? {
        return;
      }
      var s := state.value;
      Commit(s.(topics := StoreModel.ToggleSubtopic(s.topics, topicId, subtopicId)));
    }

    /** `toggleDailyTask(taskId)`; nothing happens while no document is loaded. */
    method ToggleDailyTask(taskId: int)
      modifies this
      ensures old(state).None? ==> state == old(state) && stored == old(stored)
      ensures old(state).Some? ==>
        state == Some(old(state).value.(dailyTasks := ToggleTask(old(state).value.dailyTasks, taskId)))
      ensures old(Persisted()) ==> Persisted()
    {
      if state.None? {
        return;
      }
      var s := state.value;
      Commit(s.(dailyTasks := ToggleTask(s.dailyTasks, taskId)));
    }

    /** `updateSubject(id, updates)`; nothing happens while no document is loaded. */
    method UpdateSubject(id: int, updates: SubjectUpdate)
      modifies this
      ensures old(state).None? ==> state == old(state) && stored == old(stored)
      ensures old(state).Some? ==>
        state == Some(old(state).value.(interviewSubjects :=
          StoreModel.UpdateSubject(old(state).value.interviewSubjects, id, updates)))
      ensures old(Persisted()) ==> Persisted()
    {
      if state.None? {
        return;
      }
      var s := state.value;
      Commit(s.(interviewSubjects := StoreModel.UpdateSubject(s.interviewSubjects, id, updates)));
    }

    /** `updateNotes(notes)`: replaces the notes and nothing else; nothing happens while no document
        is loaded. */
    method UpdateNotes(notes: string)
      modifies this
      ensures old(state).None? ==> state == old(state) && stored == old(stored)
      ensures old(state).Some? ==> state == Some(old(state).value.(notes := notes))
      ensures old(Persisted()) ==> Persisted()
    {
      if state.None? {
        return;
      }
      var s := state.value;
      Commit(s.(notes := notes));
    }

    /** `resetProgress()` on `today`: the seed document, whatever came before and even before the
        first load; the seed tasks keep the dates they got when the module was loaded. */
    method ResetProgress(today: int)
      modifies this
      ensures state == Some(SeedState(seedDay, today)) && Persisted()
    {
      Commit(SeedState(seedDay, today));
    }
  }

  /** A session on a fresh install: the first load seeds the document and stores it, a reload later
      the same day changes nothing, and a visit on the next day extends the streak to 2 and brings
      fresh tasks dated that day. */
  method FreshInstallScenario(moduleLoadDay: int, today: int) returns (store: ProgressStore)
    ensures store.state.Some? && store.Persisted()
    ensures store.state.value.streak == 2
    ensures store.state.value.dailyTasks == SeedTasks(today + 1)
    ensures store.state.value.lastVisit == KeyOf(today + 1)
    ensures store.state.value.topics == SeedTopics
  {
    store := new ProgressStore(None, moduleLoadDay);
    store.Load(today);
    assert store.state == Some(SeedState(moduleLoadDay, today));
    var reopened := new ProgressStore(store.stored, moduleLoadDay);
    reopened.Load(today);
    assert reopened.state == Some(SeedState(moduleLoadDay, today));
    store := new ProgressStore(reopened.stored, moduleLoadDay);
    store.Load(today + 1);
    RolloverStreak(SeedState(moduleLoadDay, today), moduleLoadDay, today + 1);
  }
}
