/**
 * The application controller (`App`): the in-memory list of workouts, the
 * handling of a submitted form, lookup by identifier, and the persistence of
 * the list under the single local-storage key "workouts".
 */
module Tracker {
  import opened Wrappers
  import opened Workouts
  import opened Validation

  /**
   * The browser's local storage, reduced to the one key the application uses,
   * "workouts": absent, or holding a saved list of workouts.
   */
  class Storage {
    var item: Option<seq<WorkoutRecord>>

    constructor(item: Option<seq<WorkoutRecord>>)
      ensures this.item == item
    {
      this.item := item;
    }

    /** `localStorage.setItem`: overwrites whatever the key held. */
    method SetItem(value: seq<WorkoutRecord>)
      modifies this
      ensures item == Some(value)
    {
      item := Some(value);
    }

    /** `localStorage.getItem`: what the key holds, `None` standing for `null`. */
    method GetItem() returns (value: Option<seq<WorkoutRecord>>)
      ensures value == item
    {
      value := item;
    }

    /** `localStorage.removeItem`: the key is absent afterwards. */
    method RemoveItem()
      modifies this
      ensures item == None
    {
      item := None;
    }
  }

  /**
   * Index of the first workout with identifier `id`: the element
   * `Array.prototype.find` returns.
   */
  function FirstWithId(workouts: seq<WorkoutRecord>, id: string): (r: Option<nat>)
    ensures r.Some? ==> r.value < |workouts| && workouts[r.value].id == id
    ensures r.Some? ==> forall j | 0 <= j < r.value :: workouts[j].id != id
    ensures r.None? ==> forall j | 0 <= j < |workouts| :: workouts[j].id != id
  {
    if workouts == [] then None
    else if workouts[0].id == id then Some(0)
    else match FirstWithId(workouts[1..], id)
      case None => None
      case Some(k) => Some(k + 1)
  }

  class App {
    var workouts: seq<WorkoutRecord>
    const storage: Storage

    /** Builds the application and restores the saved list (`_getLocalStorage`). */
    constructor(storage: Storage)
      ensures this.storage == storage && storage.item == old(storage.item)
      ensures workouts == if storage.item.Some? then storage.item.value else []
    {
      this.storage := storage;
      workouts := [];
      new;
      GetLocalStorage();
    }

    /**
     * `_newWorkout`: an accepted submission is appended to the list, which is
     * then saved; a rejected one changes nothing.
     */
    method NewWorkout(s: Submission, clock: Clock) returns (accepted: bool)
      requires ValidDay(clock.date)
      modifies this, storage
      ensures accepted == Accepts(s)
      ensures accepted ==> workouts == old(workouts) + [NewRecord(s, clock)]
      ensures accepted ==> storage.item == Some(workouts)
      ensures !accepted ==> workouts == old(workouts) && storage.item == old(storage.item)
    {
      var record: WorkoutRecord;
      if s.kind == Running {
        if !ValidInputs([s.distance, s.duration, s.cadence])
           || !PositiveNumbers([s.distance, s.duration, s.cadence]) {
          return false;
        }
        assert Accepts(s);
        var workout := new Workout.NewRunning(clock, s.coordinates, s.distance.value,
                                              s.duration.value, s.cadence.value);
        record := workout.Data();
      } else {
        if !IsFinite(s.distance) || !IsFinite(s.duration) || !IsFinite(s.elevation)
           || !PositiveNumbers([s.distance, s.duration]) {
          return false;
        }
        assert Accepts(s);
        var workout := new Workout.NewCycling(clock, s.coordinates, s.distance.value,
                                              s.duration.value, s.elevation.value);
        record := workout.Data();
      }
      workouts := workouts + [record];
      SetLocalStorage();
      accepted := true;
    }

    /** The workout a click on the list entry with identifier `id` moves the map to. */
    method FindById(id: string) returns (found: Option<WorkoutRecord>)
      ensures found.Some? ==> found.value in workouts && found.value.id == id
      ensures found.Some? ==> exists i | 0 <= i < |workouts| ::
        workouts[i] == found.value && forall j | 0 <= j < i :: workouts[j].id != id
      ensures found.None? <==> forall j | 0 <= j < |workouts| :: workouts[j].id != id
    {
      match FirstWithId(workouts, id)
      case None =>
        found := None;
      case Some(i) =>
        found := Some(workouts[i]);
    }

    /** `_setLocalStorage`: the key holds exactly the current list. */
    method SetLocalStorage()
      modifies storage
      ensures storage.item == Some(workouts)
    {
      storage.SetItem(workouts);
    }

    /** `_getLocalStorage`: a saved list replaces the current one; with none, nothing changes. */
    method GetLocalStorage()
      modifies this
      ensures storage.item == old(storage.item)
      ensures workouts == if storage.item.Some? then storage.item.value else old(workouts)
    {
      var data := storage.GetItem();
      if data.None? {
        return;
      }
      workouts := data.value;
    }

    /** `reset`: removes the saved list; the in-memory list is left to the page reload. */
    method Reset()
      modifies storage
      ensures storage.item == None
    {
      storage.RemoveItem();
    }
  }

  /** Saving and then loading gives back the list that was saved, in order. */
  method SaveThenLoad(app: App)
    modifies app, app.storage
    ensures app.storage.item == Some(old(app.workouts))
    ensures app.workouts == old(app.workouts)
  {
    app.SetLocalStorage();
    app.GetLocalStorage();
  }

  /** After a reset, the reloaded page starts with an empty list. */
  method ResetThenReload(app: App) returns (reloaded: App)
    modifies app.storage
    ensures reloaded.storage == app.storage && reloaded.storage.item == None
    ensures reloaded.workouts == []
  {
    app.Reset();
    reloaded := new App(app.storage);
  }
}
