/**
 * The watering reminder (`scheduleWaterNotification`, lib/notifications.ts):
 * the next-due instant, the choice of trigger, and the platform's store of
 * pending notifications, to which every call appends one entry. The clock
 * that `Date.now()` reads is the parameter `now`.
 */
module Notifications {
  import JsMath
  import DateUtils

  /** `PlantForNotification`: the plant fields the reminder is computed from. */
  datatype PlantForNotification = PlantForNotification(name: string, lastWateredAt: int, waterEveryDays: real)

  /** A notification trigger: `null` delivers at once, a DATE trigger once at `date`. */
  datatype Trigger = Immediate | AtDate(date: int)

  /** The content and trigger handed to `scheduleNotificationAsync`. */
  datatype Reminder = Reminder(title: string, body: string, sound: string, trigger: Trigger)

  const ReminderTitle: string := "Recordatorio de riego"
  const ReminderSound: string := "default"
  const BodyPrefix: string := "Tu planta "
  const BodySuffix: string := " necesita ser regada ahora mismo!"

  /** The reminder text, naming the plant. */
  function ReminderBody(name: string): (body: string)
    ensures |body| == |BodyPrefix| + |name| + |BodySuffix|
    ensures body[..|BodyPrefix|] == BodyPrefix
    ensures body[|BodyPrefix|..|BodyPrefix| + |name|] == name
    ensures body[|BodyPrefix| + |name|..] == BodySuffix
  {
    BodyPrefix + name + BodySuffix
  }

  /** The reminder text contains the plant's name. */
  lemma BodyNamesPlant(name: string)
    ensures exists i {:trigger ReminderBody(name)[i..]} :: 0 <= i <= |ReminderBody(name)| - |name| &&
              ReminderBody(name)[i..i + |name|] == name
  {
    var b := ReminderBody(name);
    var i := |BodyPrefix|;
    assert b[i..i + |name|] == name;
    assert b[i..][..|name|] == b[i..i + |name|];
  }

  /**
   * `dayjs(lastWateredAt).add(waterEveryDays, 'day')`: dayjs rounds the count
   * of days with `Math.round` and keeps the time of day.
   */
  function NextWaterDate(lastWateredAt: int, waterEveryDays: real): (due: int)
    ensures (due - lastWateredAt) % DateUtils.MillisPerDay == 0
    ensures var days := (due - lastWateredAt) / DateUtils.MillisPerDay;
            waterEveryDays - 0.5 < days as real <= waterEveryDays + 0.5
  {
    lastWateredAt + JsMath.Round(waterEveryDays) * DateUtils.MillisPerDay
  }

  /** For a whole number of days the next-due instant is exactly that many days later. */
  lemma NextWaterDateWholeDays(lastWateredAt: int, n: int)
    ensures NextWaterDate(lastWateredAt, n as real) == lastWateredAt + n * DateUtils.MillisPerDay
  {
    JsMath.RoundOfInteger(n);
  }

  /** The trigger rule: deliver at once when the due instant is not in the future. */
  function TriggerFor(nextDue: int, now: int): (t: Trigger)
    ensures t.Immediate? <==> nextDue <= now
    ensures t.AtDate? ==> t.date == nextDue && t.date > now
  {
    if nextDue <= now then Immediate else AtDate(nextDue)
  }

  /** The notification request `scheduleWaterNotification` builds for a plant at instant `now`. */
  function WaterReminder(plant: PlantForNotification, now: int): (r: Reminder)
    ensures r.title == ReminderTitle && r.body == ReminderBody(plant.name) && r.sound == ReminderSound
    ensures r.trigger == TriggerFor(NextWaterDate(plant.lastWateredAt, plant.waterEveryDays), now)
  {
    var nextWaterDate := NextWaterDate(plant.lastWateredAt, plant.waterEveryDays);
    Reminder(ReminderTitle, ReminderBody(plant.name), ReminderSound, TriggerFor(nextWaterDate, now))
  }

  /**
   * A plant watered at this very instant is reminded immediately exactly when
   * its interval rounds to no days at all; any interval of half a day or more
   * gives a future trigger.
   */
  lemma JustWateredImmediateIff(name: string, now: int, waterEveryDays: real)
    ensures WaterReminder(PlantForNotification(name, now, waterEveryDays), now).trigger.Immediate?
            <==> waterEveryDays < 0.5
  {
  }

  /**
   * For a whole-day interval the reminder is immediate exactly when the
   * plant's card shows a full cycle.
   */
  lemma ImmediateIffCycleComplete(plant: PlantForNotification, n: int, now: int)
    requires n > 0 && plant.waterEveryDays == n as real
    ensures WaterReminder(plant, now).trigger.Immediate?
            <==> DateUtils.WaterProgress(plant.lastWateredAt, plant.waterEveryDays, now) == 1.0
  {
    NextWaterDateWholeDays(plant.lastWateredAt, n);
    DateUtils.ProgressFullWhenDue(plant.lastWateredAt, plant.waterEveryDays, now);
    var elapsed := now - plant.lastWateredAt;
    var d := DateUtils.DiffDays(now, plant.lastWateredAt);
    assert d >= n as real <==> elapsed >= n * DateUtils.MillisPerDay by {
      assert d * (DateUtils.MillisPerDay as real) == elapsed as real;
      assert (n * DateUtils.MillisPerDay) as real == (n as real) * (DateUtils.MillisPerDay as real);
    }
  }

  /**
   * The platform's pending-notification store as far as this app uses it:
   * it only ever receives new requests; nothing is cancelled or replaced.
   */
  class ReminderStore {
    var pending: seq<Reminder>

    constructor ()
      ensures pending == []
    {
      pending := [];
    }

    /** `scheduleWaterNotification`: registers one more notification, leaving earlier ones as they were. */
    method ScheduleWaterNotification(plant: PlantForNotification, now: int)
      modifies this
      ensures pending == old(pending) + [WaterReminder(plant, now)]
    {
      pending := pending + [WaterReminder(plant, now)];
    }
  }

  /** Watered 2024-01-01 every 3 days, checked on 2024-01-10: the reminder is immediate. */
  lemma OverdueExample()
    ensures WaterReminder(PlantForNotification("Monstera", DateUtils.NewYear2024, 3.0),
                          DateUtils.NewYear2024 + 9 * DateUtils.MillisPerDay).trigger == Immediate
  {
  }

  /** Created 2024-01-01 with a 5-day interval: one trigger on 2024-01-06 at the same time of day. */
  lemma JustCreatedExample()
    ensures WaterReminder(PlantForNotification("Monstera", DateUtils.NewYear2024, 5.0), DateUtils.NewYear2024).trigger
            == AtDate(DateUtils.NewYear2024 + 5 * DateUtils.MillisPerDay)
  {
  }
}
