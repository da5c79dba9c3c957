/**
 * The create/edit screen (app/plant/new.tsx): its form state (`name`,
 * `days`, `photoUri`, set through React state setters), loading the plant
 * being edited, taking a photo, and `handleSave`, which validates, persists
 * and then schedules the reminder. `Number(days)` is abstracted as the
 * number the text parses to, `None` standing for NaN; the clock readings,
 * the camera result and a failing SQL statement are parameters.
 */
module NewPlantScreen {
  import opened Options
  import JsText
  import PlantRepository
  import Notifications

  const FallbackInterval: real := 3.0

  /**
   * `Number(days) || 3`: a parsed 0 or NaN is falsy and becomes 3; every
   * other number, negative ones included, is used as it is.
   */
  function IntervalOrDefault(parsed: Option<real>): (every: real)
    ensures every != 0.0
    ensures every == FallbackInterval || parsed == Some(every)
    ensures parsed.Some? && parsed.value != 0.0 ==> every == parsed.value
  {
    if parsed.Some? && parsed.value != 0.0 then parsed.value else FallbackInterval
  }

  /** Whether the save creates a row or updates the row with the route's id (`Number(id)`). */
  datatype SaveTarget = CreateNew | UpdateExisting(id: int)

  /** The row contents a save writes, and where. */
  datatype SavePlan = SavePlan(target: SaveTarget, fields: PlantRepository.PlantFields)

  /**
   * The pure part of `handleSave`: the interval, the name check, the trimmed
   * name, the new watering instant and the notes (always null). `None` is the
   * "name required" alert.
   */
  function PlanSave(editId: Option<int>, name: string, days: Option<real>, photoUri: Option<string>, savedAt: int)
    : (plan: Option<SavePlan>)
    ensures plan.None? <==> JsText.IsBlank(name)
    ensures plan.Some? ==>
              && plan.value.target == (if editId.Some? then UpdateExisting(editId.value) else CreateNew)
              && plan.value.fields.name == JsText.Trim(name)
              && !JsText.IsBlank(plan.value.fields.name)
              && plan.value.fields.photoUri == photoUri
              && plan.value.fields.waterEveryDays == IntervalOrDefault(days)
              && plan.value.fields.lastWateredAt == savedAt
              && plan.value.fields.notes == None
  {
    var every := IntervalOrDefault(days);
    JsText.TrimEmptyIffBlank(name);
    if JsText.Trim(name) == [] then None
    else
      var trimmedName := JsText.Trim(name);
      JsText.TrimIsSlice(name);
      assert !JsText.IsWhiteSpace(trimmedName[0]);
      var target := if editId.Some? then UpdateExisting(editId.value) else CreateNew;
      Some(SavePlan(target, PlantRepository.PlantFields(trimmedName, photoUri, every, savedAt, None)))
  }

  /** The reminder input for the fields a save writes. */
  function ReminderInput(f: PlantRepository.PlantFields): (n: Notifications.PlantForNotification)
    ensures n.name == f.name && n.lastWateredAt == f.lastWateredAt && n.waterEveryDays == f.waterEveryDays
  {
    Notifications.PlantForNotification(f.name, f.lastWateredAt, f.waterEveryDays)
  }

  /**
   * The persist step of a save took the table from (`before`, `nextBefore`)
   * to (`after`, `nextAfter`): an insert under the next id, or an update of
   * the row with the route's id that leaves the table alone when that row is
   * gone.
   */
  ghost predicate Persisted(before: map<int, PlantRepository.Plant>, nextBefore: int,
                            after: map<int, PlantRepository.Plant>, nextAfter: int, plan: SavePlan)
  {
    match plan.target
    case CreateNew =>
      nextAfter == nextBefore + 1 && after == before[nextBefore := PlantRepository.WithId(nextBefore, plan.fields)]
    case UpdateExisting(id) =>
      nextAfter == nextBefore &&
      after == (if id in before then before[id := PlantRepository.WithId(id, plan.fields)] else before)
  }

  /**
   * Whichever row a save wrote, reading it back gives exactly the name,
   * watering instant and interval the reminder is scheduled with.
   */
  lemma PersistedRowFeedsReminder(before: map<int, PlantRepository.Plant>, nextBefore: int,
                                  after: map<int, PlantRepository.Plant>, nextAfter: int, plan: SavePlan)
    requires Persisted(before, nextBefore, after, nextAfter, plan)
    ensures var key := if plan.target.UpdateExisting? then plan.target.id else nextBefore;
            (plan.target.CreateNew? || plan.target.id in before) ==>
              && key in after
              && ReminderInput(plan.fields)
                 == Notifications.PlantForNotification(after[key].name, after[key].lastWateredAt, after[key].waterEveryDays)
  {
  }

  /** How `handleSave` ends. */
  datatype SaveOutcome =
    | NameRequired   // the alert is shown and nothing is written
    | StorageFailed  // the SQL statement rejected; nothing after it runs
    | Saved          // the row is written, the reminder registered, and the screen closes

  class PlantForm {
    /** The route's `id`, as `Number(id)`; present exactly when editing. */
    const editId: Option<int>
    var name: string
    /** What `Number(days)` gives for the days field. */
    var days: Option<real>
    var photoUri: Option<string>

    /** The initial state: an empty name, the days field reading '3', no photo. */
    constructor (editId: Option<int>)
      ensures this.editId == editId
      ensures name == "" && days == Some(3.0) && photoUri == None
    {
      this.editId := editId;
      name := "";
      days := Some(3.0);
      photoUri := None;
    }

    /** The name field's `onChangeText`. */
    method SetName(text: string)
      modifies this
      ensures name == text && days == old(days) && photoUri == old(photoUri)
    {
      name := text;
    }

    /** The days field's `onChangeText`, as the number the new text parses to. */
    method SetDays(parsed: Option<real>)
      modifies this
      ensures days == parsed && name == old(name) && photoUri == old(photoUri)
    {
      days := parsed;
    }

    /**
     * `loadPlant`: when editing and the row exists, the form takes its name,
     * interval and photo (the interval written out with `toString`, which
     * `Number` reads back exactly); otherwise the form is left alone.
     */
    method LoadPlant(table: PlantRepository.PlantTable)
      requires table.Valid()
      modifies this
      ensures editId.Some? && editId.value in table.rows ==>
                var p := table.rows[editId.value];
                name == p.name && days == Some(p.waterEveryDays) && photoUri == p.photoUri
      ensures editId.None? || editId.value !in table.rows ==>
                name == old(name) && days == old(days) && photoUri == old(photoUri)
    {
      if editId.None? {
        return;
      }
      var p := table.GetPlantById(editId.value);
      if p.Some? {
        name := p.value.name;
        days := Some(p.value.waterEveryDays);
        photoUri := p.value.photoUri;
      }
    }

    /**
     * `pickImageFromCamera`: `capture` is the URI of the photo taken, or
     * `None` when permission was refused or the capture was cancelled. Only a
     * new photo replaces the current one.
     */
    method PickImageFromCamera(capture: Option<string>)
      modifies this
      ensures photoUri == (if capture.Some? then capture else old(photoUri))
      ensures name == old(name) && days == old(days)
    {
      if capture.Some? {
        photoUri := capture;
      }
    }

    /**
     * `handleSave`: validate, then write the row (update when editing, insert
     * otherwise), then register the reminder with the values just written.
     * `savedAt` is the instant `new Date()` reads before writing, `scheduledAt`
     * the one `Date.now()` reads inside the scheduler, and `storageError`
     * says whether the SQL statement rejects.
     */
    method HandleSave(table: PlantRepository.PlantTable, store: Notifications.ReminderStore,
                      savedAt: int, scheduledAt: int, storageError: bool)
      returns (outcome: SaveOutcome)
      requires table.Valid()
      modifies table, store
      ensures table.Valid()
      ensures var plan := PlanSave(editId, name, days, photoUri, savedAt);
        && (plan.None? ==> outcome == NameRequired)
        && (plan.Some? && storageError ==> outcome == StorageFailed)
        && (plan.Some? && !storageError ==> outcome == Saved)
      ensures outcome != Saved ==>
        table.rows == old(table.rows) && table.nextId == old(table.nextId) && store.pending == old(store.pending)
      ensures outcome == Saved ==>
        var plan := PlanSave(editId, name, days, photoUri, savedAt).value;
        && Persisted(old(table.rows), old(table.nextId), table.rows, table.nextId, plan)
        && store.pending == old(store.pending) + [Notifications.WaterReminder(ReminderInput(plan.fields), scheduledAt)]
    {
      var plan := PlanSave(editId, name, days, photoUri, savedAt);
      if plan.None? {
        return NameRequired;
      }
      var fields := plan.value.fields;
      if storageError {
        return StorageFailed;
      }
      ghost var rowsBefore, nextBefore := table.rows, table.nextId;
      match plan.value.target {
        case UpdateExisting(id) => table.UpdatePlant(PlantRepository.WithId(id, fields));
        case CreateNew => table.CreatePlant(fields);
      }
      assert Persisted(rowsBefore, nextBefore, table.rows, table.nextId, plan.value);
      store.ScheduleWaterNotification(ReminderInput(fields), scheduledAt);
      return Saved;
    }
  }
}
