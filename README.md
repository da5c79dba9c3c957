# PlantAlert watering model in Dafny

PlantAlert is a mobile app that keeps house plants on a watering schedule. Each
plant has a name, an optional photo, an interval in days and the instant it was
last watered. The app shows how far each plant is into its watering cycle and
registers a local reminder for when the cycle ends.

This project models that core:

- `DateUtils` (`date_utils.dfy`): the cycle progress, a ratio clamped to [0, 1].
- `Notifications` (`notifications.dfy`): the next-due instant, the choice between an immediate and a dated trigger, and the pending-notification store, which only grows.
- `PlantRepository` (`plant_repository.dfy`): the `plants` table as a class with a map of rows and the AUTOINCREMENT counter.
- `NewPlantScreen` (`new_plant_screen.dfy`): the create/edit form and `handleSave`. Saving validates the name, defaults the interval, writes the row, and only then schedules the reminder with the values just written.
- `PlantCard` (`plant_card.dfy`): the whole percent shown on the bar and in the label.
- `ThemeColor` (`theme_color.dfy`): the colour rule of `useThemeColor`.
- `ColorSchemeContext` (`color_scheme_context.dfy`): the light/dark scheme and its toggle.
- `JsMath`, `JsText` and `Options` hold the JavaScript primitives these use: `Math.round`, `min` and `max`, `trim`, `startsWith`, number-to-text, and `null`.

Instants are integer epoch milliseconds. A day is a fixed 86,400,000 ms. Ratios
and intervals are exact reals. The clock, the system colour scheme, the camera
result and a failing SQL statement are parameters of the operations that read them.

Three behaviours of the code are worth noting, and the model follows the code:

- Scheduling never supersedes an earlier reminder for the same plant.
- Deleting a plant does not cancel its reminders.
- Intervals of zero or less are not rejected: `Number(days) || 3` turns 0 into 3 and lets negative values through.

`DateUtils.NegativeIntervalNeverFills` shows what a negative interval does to
the progress bar. Editing a plant whose row is gone still schedules a
reminder, and `NewPlantScreen.PlantForm.HandleSave` states this.

## Model

| member | source | states |
|---|---|---|
| `DateUtils.DiffDays` | lib/dateUtils.ts:8-10 | the elapsed days times the day length are exactly the elapsed milliseconds, so fractions of a day are kept |
| `DateUtils.WaterProgress` | lib/dateUtils.ts:4-14 | for every non-zero interval, negative ones included, the progress lies in [0, 1] |
| `DateUtils.ProgressZeroUntilTimePasses` | lib/dateUtils.ts:10-12 | for a positive interval, progress is 0 exactly when now is at or before the last watering |
| `DateUtils.ProgressFullWhenDue` | lib/dateUtils.ts:11-12 | for a positive interval, progress is 1 exactly when at least a whole interval has elapsed |
| `DateUtils.ProgressLinearWithinCycle` | lib/dateUtils.ts:10-11 | within the cycle, progress equals elapsed days divided by the interval, without truncation |
| `DateUtils.ProgressMonotoneInTime` | lib/dateUtils.ts:10-12 | with the watering instant and the interval fixed, a later now never gives less progress |
| `DateUtils.NegativeIntervalNeverFills` | lib/dateUtils.ts:11-12 | a negative interval gives progress 0 from the watering instant on |
| `DateUtils.HalfWayExample` | lib/dateUtils.ts:10-12 | two days into a four-day cycle the progress is 0.5 |
| `DateUtils.PartialDayExample` | lib/dateUtils.ts:10 | twelve hours into a one-day cycle the progress is 0.5 |
| `Notifications.BodyNamesPlant` | lib/notifications.ts:67-70 | the reminder text contains the plant's name |
| `Notifications.NextWaterDate` | lib/notifications.ts:54-56 | the next-due instant is a whole number of days after the last watering, so the time of day is kept, and that number is the interval rounded to the nearest whole day |
| `Notifications.NextWaterDateWholeDays` | lib/notifications.ts:54-56 | for a whole-day interval n, the next-due instant is exactly n days after the last watering |
| `Notifications.TriggerFor` | lib/notifications.ts:58-64 | the trigger is immediate exactly when next-due is at or before now; otherwise it is one dated trigger at next-due, strictly after now |
| `Notifications.WaterReminder` | lib/notifications.ts:54-73 | the request has the fixed title 'Recordatorio de riego', the plant's body text, the 'default' sound, and the trigger the rule picks for the next-due instant |
| `Notifications.JustWateredImmediateIff` | lib/notifications.ts:54-64 | for a plant watered at this instant, the reminder is immediate exactly when the interval is below half a day, which rounds to zero days |
| `Notifications.ImmediateIffCycleComplete` | lib/notifications.ts:54-60 | for a positive whole-day interval, the reminder is immediate exactly when the card's progress is 1 |
| `Notifications.ReminderStore.ScheduleWaterNotification` | lib/notifications.ts:51-74 | each call appends exactly one request to the pending store, and earlier requests are unchanged |
| `Notifications.OverdueExample` | lib/notifications.ts:58-60 | watered on 2024-01-01 every 3 days and scheduled on 2024-01-10, the reminder is immediate |
| `Notifications.JustCreatedExample` | lib/notifications.ts:54-64 | created on 2024-01-01 with a 5-day interval, the trigger is dated 2024-01-06 at the same time of day |
| `PlantRepository.PlantTable.constructor` | lib/db.ts:10-17 | a new table has no rows, and its counter starts at 1 |
| `PlantRepository.PlantTable.RowsDownFrom` | lib/plantRepository.ts:16 | lists exactly the rows with ids in 1..k, by strictly descending id |
| `PlantRepository.PlantTable.GetAllPlants` | lib/plantRepository.ts:14-17 | lists every row exactly once, and nothing else, by strictly descending id |
| `PlantRepository.PlantTable.GetPlantById` | lib/plantRepository.ts:19-25 | returns the row with that id, which is also in the full listing, or none when no row has that id |
| `PlantRepository.PlantTable.CreatePlant` | lib/plantRepository.ts:27-34 | adds one row with the given fields, under an id larger than every id issued before; the other rows are unchanged |
| `PlantRepository.PlantTable.UpdatePlant` | lib/plantRepository.ts:37-56 | replaces the five columns of the row with that id; no other row changes, no id changes, and an absent id leaves the table as it was |
| `PlantRepository.PlantTable.MarkWateredNow` | lib/plantRepository.ts:58-62 | sets only `lastWateredAt` of that row to now; an absent id leaves the table as it was |
| `PlantRepository.PlantTable.DeletePlant` | lib/plantRepository.ts:64-67 | removes exactly the row with that id, and the counter is unchanged, so the id is never issued again |
| `JsMath.Round` | components/PlantCard.tsx:29 | `Math.round`: the result is the integer within half a unit of the input, halves going up |
| `JsMath.Min` | lib/dateUtils.ts:12 | `Math.min`: one of the two inputs, and no larger than either |
| `JsMath.Max` | lib/dateUtils.ts:12 | `Math.max`: one of the two inputs, and no smaller than either |
| `JsText.Trim` | app/plant/new.tsx:73-78 | `trim` never lengthens the name, and what it gives back is empty or neither starts nor ends with white space |
| `JsText.NumberText` | components/PlantCard.tsx:54-62 | the `${percent}` text is non-empty, starts with '-' exactly for negative numbers, and is digits after its first character |
| `Notifications.ReminderBody` | lib/notifications.ts:69 | the body is the fixed prefix, then the plant's name, then the fixed suffix |
| `NewPlantScreen.ReminderInput` | app/plant/new.tsx:103-107 | the reminder is scheduled with the saved name, watering instant and interval |
| `JsText.TrimIsSlice` | app/plant/new.tsx:78 | the trimmed name is a contiguous slice of the input; everything cut away is white space, and the slice neither starts nor ends with white space |
| `JsText.TrimEmptyIffBlank` | app/plant/new.tsx:73 | a name trims to nothing exactly when every character in it is white space |
| `JsText.TrimIdempotent` | app/plant/new.tsx:78 | trimming an already trimmed name changes nothing |
| `NewPlantScreen.IntervalOrDefault` | app/plant/new.tsx:71 | the interval is never 0; it is the parsed number, or 3 when the text parses to 0 or NaN; negative numbers pass through |
| `NewPlantScreen.PlanSave` | app/plant/new.tsx:70-100 | a blank name aborts. Otherwise the row is the trimmed, non-blank name, the photo, the defaulted interval, the save instant as last watering and null notes. The target is an update of `Number(id)` when editing and a create otherwise |
| `NewPlantScreen.PlantForm.constructor` | app/plant/new.tsx:29-31 | the form starts with an empty name, days '3' and no photo |
| `NewPlantScreen.PlantForm.SetName` | app/plant/new.tsx:150-151 | typing sets the name and leaves the other fields alone |
| `NewPlantScreen.PlantForm.SetDays` | app/plant/new.tsx:166-167 | typing sets the days value and leaves the other fields alone |
| `NewPlantScreen.PlantForm.LoadPlant` | app/plant/new.tsx:38-49 | when editing and the row exists, the form takes its name, interval and photo; otherwise the form is unchanged |
| `NewPlantScreen.PlantForm.PickImageFromCamera` | app/plant/new.tsx:51-68 | a photo is replaced only by a capture that was taken; a refusal or cancel keeps the current one |
| `NewPlantScreen.PersistedRowFeedsReminder` | app/plant/new.tsx:81-107 | after the persist step, the row written holds exactly the name, last watering and interval the reminder is scheduled with |
| `NewPlantScreen.PlantForm.HandleSave` | app/plant/new.tsx:70-110 | a blank name or a failed write changes neither the table nor the reminders. Otherwise the row is written as planned: updated when editing, or exactly one created. Then exactly one reminder is appended, built from the planned name, last watering and interval |
| `JsText.NumberTextRoundTrip` | components/PlantCard.tsx:54-62 | the text written for a number reads back as that number |
| `JsText.NumberTextInjective` | components/PlantCard.tsx:54-62 | different percents are written as different texts |
| `PlantCard.Percent` | components/PlantCard.tsx:29 | the percent is the whole number nearest to progress times 100, with halves rounded up; progress in [0, 1] gives a percent in [0, 100] |
| `PlantCard.PercentEnds` | components/PlantCard.tsx:29 | progress 0 shows 0% and progress 1 shows 100% |
| `PlantCard.PercentMonotone` | components/PlantCard.tsx:29 | more progress never shows a smaller percent |
| `PlantCard.ShowPercent` | components/PlantCard.tsx:54-62 | the bar width is the percent followed by '%', and the label is that same text followed by ' del ciclo de riego' |
| `PlantCard.CardProgress` | components/PlantCard.tsx:28-29 | the card's percent is the rounded cycle progress of the plant at that instant, between 0 and 100, and the bar and the label show that same percent |
| `PlantCard.BarDeterminesLabel` | components/PlantCard.tsx:54-62 | two cards have equal bars exactly when their percents are equal, and equal labels exactly when their percents are equal |
| `PlantCard.CardColorsFromPalette` | components/PlantCard.tsx:13-26 | each colour the card asks for comes from the palette of the scheme in use, because its props are names and not '#' literals |
| `ThemeColor.ThemeInUse` | hooks/use-theme-color.ts:11 | a missing scheme counts as 'light' |
| `ThemeColor.UseThemeColor` | hooks/use-theme-color.ts:7-20 | a prop for the current scheme that starts with '#' is returned unchanged; otherwise the palette entry for that scheme and colour name is returned |
| `ThemeColor.ColorComesFromScheme` | hooks/use-theme-color.ts:14-19 | the colour is always the current scheme's own prop or its palette entry |
| `ThemeColor.NamedPropFallsBack` | hooks/use-theme-color.ts:14-19 | a prop that does not start with '#' gives the palette entry |
| `ColorSchemeContext.SystemScheme` | context/ColorSchemeContext.tsx:19 | the initial scheme is 'dark' exactly when the system reports 'dark', and 'light' for anything else |
| `ColorSchemeContext.Toggled` | context/ColorSchemeContext.tsx:25 | toggling always changes the scheme |
| `ColorSchemeContext.ToggleTwice` | context/ColorSchemeContext.tsx:25 | toggling twice restores the scheme |
| `ColorSchemeContext.ColorSchemeState.Default` | context/ColorSchemeContext.tsx:12-16 | without a provider the scheme is 'dark' |
| `ColorSchemeContext.ColorSchemeState.Provider` | context/ColorSchemeContext.tsx:18-20 | a provider starts from the system's scheme |
| `ColorSchemeContext.ColorSchemeState.ToggleScheme` | context/ColorSchemeContext.tsx:22-28 | under a provider the scheme flips; without one the toggle changes nothing |

## Left out

- Notification platform setup is not modelled: the foreground handler, permissions and the Android channel (lib/notifications.ts:13-48). These are calls into the platform library.
- A rejected `scheduleNotificationAsync`, for example when permission is missing, is not modelled. The store always accepts the request.
- SQLite plumbing is not modelled: the lazily opened database, `initDb`, and running the SQL (lib/db.ts:6-25). The table is an in-memory map; only the AUTOINCREMENT key and the columns of the schema shape it.
- Timestamps are epoch milliseconds rather than the ISO 8601 strings that `toISOString` writes and dayjs parses.
- `DateUtils.DiffDays`: counts a day as 86,400,000 ms, while dayjs subtracts the local time-zone offset change, so a day can be 23 or 25 hours across a daylight-saving change.
- `Notifications.NextWaterDate`: adds whole days of 86,400,000 ms, while dayjs adds calendar days in local time, which differ across a daylight-saving change. The rounding of the day count with `Math.round` is dayjs's own.
- `DateUtils.WaterProgress`: an interval of 0 is excluded. In JavaScript it gives Infinity or NaN, which the clamp turns into 1, 0 or NaN. IEEE-754 rounding of JS numbers is not modelled either; the arithmetic is exact.
- `Number(days)` is abstracted as the number the text parses to, with `None` for NaN. The form holds that number rather than the text. `loadPlant` writes the interval with `toString`, and `Number` reads it back exactly.
- The route id is taken as the number `Number(id)` gives. A non-numeric id, which would give NaN and match no row, is not represented.
- React's asynchronous state updates and effects are modelled as immediate assignments. A `loadPlant` that finishes while the user is typing is not modelled.
- Rendering, styles, navigation (`router.back`), the alert dialog, the camera picker and its permission prompt are not modelled. The alert is the `NameRequired` outcome. The picker's result is a parameter.
- The palette values of constants/theme.ts and the pass-through hooks are not modelled. The palette is a parameter of `useThemeColor`.
- The detail screen's water-now and delete handlers (app/plant/[id].tsx) are not modelled. They call `markWateredNow`, `scheduleWaterNotification` and `deletePlant`, which are modelled.
