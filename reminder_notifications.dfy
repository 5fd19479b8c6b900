/** The reminder notification rules (src/services/reminderNotifications.ts).
    A check refreshes the store, then warns about every reminder due within
    the next 24 hours whose schedule window contains the time left. The
    source measures that time in fractional hours, `timeDiff / 3600000`; the
    model keeps it in whole milliseconds and compares `h <= H` as
    `diff <= H * 3600000`, which is the same comparison. The clock reading
    `new Date()` is a parameter. */
module ReminderNotifications {
  import opened Wrappers
  import opened Entities
  import opened Firestore
  import opened ReminderSync
  import opened RemindersStore

  const HOUR_MS: int := 3_600_000

  /** The schedule thresholds in hours: a day, two days, a week, and a
      month of 30 days. */
  function ThresholdHours(s: ReminderSchedule): int {
    match s
    case OneDay => 24
    case TwoDays => 48
    case OneWeek => 168
    case OneMonth => 720
  }

  /** The order in which `checkReminderSchedule` tests the schedules. */
  const SCHEDULE_ORDER: seq<ReminderSchedule> := [OneDay, TwoDays, OneWeek, OneMonth]

  /** The last hour before the threshold: `H - 1 < hoursDiff <= H`. */
  predicate InWindow(s: ReminderSchedule, diff: int) {
    (ThresholdHours(s) - 1) * HOUR_MS < diff <= ThresholdHours(s) * HOUR_MS
  }

  /** Some schedule of the reminder has the time left in its window. */
  predicate Notifies(schedules: seq<ReminderSchedule>, diff: int) {
    exists k :: 0 <= k < |schedules| && InWindow(schedules[k], diff)
  }

  /** `shouldShowNotification(reminder, hoursDiff)`: the loop over the
      reminder's schedules that returns at the first window that fits. */
  method ShouldShowNotification(reminder: Reminder, diff: int) returns (b: bool)
    ensures b <==> Notifies(reminder.reminderSchedule, diff)
  {
    var schedules := reminder.reminderSchedule;
    for i := 0 to |schedules|
      invariant forall k :: 0 <= k < i ==> !InWindow(schedules[k], diff)
    {
      var hours := ThresholdHours(schedules[i]);
      if diff <= hours * HOUR_MS && diff > (hours - 1) * HOUR_MS {
        return true;
      }
    }
    return false;
  }

  /** Inside the 24-hour window the check looks at, a warning is due exactly
      when the reminder has the one-day schedule and less than an hour
      separates it from a full day: no other schedule can ever fire. */
  lemma OnlyOneDayFires(schedules: seq<ReminderSchedule>, diff: int)
    requires 0 < diff <= 24 * HOUR_MS
    ensures Notifies(schedules, diff) <==> OneDay in schedules && 23 * HOUR_MS < diff
  {
    if Notifies(schedules, diff) {
      var k :| 0 <= k < |schedules| && InWindow(schedules[k], diff);
      assert schedules[k] == OneDay;
    }
    if OneDay in schedules && 23 * HOUR_MS < diff {
      var k :| 0 <= k < |schedules| && schedules[k] == OneDay;
      assert InWindow(schedules[k], diff);
    }
  }

  /** The schedules among `order` whose threshold is not yet passed:
      `0 < hoursDiff <= H`. */
  function Within(order: seq<ReminderSchedule>, diff: int): seq<ReminderSchedule> {
    if order == [] then []
    else (if 0 < diff <= ThresholdHours(order[0]) * HOUR_MS then [order[0]] else []) + Within(order[1..], diff)
  }

  /** `checkReminderSchedule(reminder, dueTime)`: the four tests, each
      pushing its schedule. */
  method CheckReminderSchedule(reminder: Reminder, dueTime: int, now: int) returns (active: seq<ReminderSchedule>)
    ensures active == Within(SCHEDULE_ORDER, dueTime - now)
  {
    var diff := dueTime - now;
    active := [];
    if diff <= 24 * HOUR_MS && diff > 0 {
      active := active + [OneDay];
    }
    if diff <= 48 * HOUR_MS && diff > 0 {
      active := active + [TwoDays];
    }
    if diff <= 168 * HOUR_MS && diff > 0 {
      active := active + [OneWeek];
    }
    if diff <= 720 * HOUR_MS && diff > 0 {
      active := active + [OneMonth];
    }
    WithinOrder(diff);
  }

  /** `Within` over the fixed order, spelled out. */
  lemma WithinOrder(diff: int)
    ensures Within(SCHEDULE_ORDER, diff) ==
      (if 0 < diff <= 24 * HOUR_MS then [OneDay] else [])
      + (if 0 < diff <= 48 * HOUR_MS then [TwoDays] else [])
      + (if 0 < diff <= 168 * HOUR_MS then [OneWeek] else [])
      + (if 0 < diff <= 720 * HOUR_MS then [OneMonth] else [])
  {
    var o := SCHEDULE_ORDER;
    var o1, o2, o3 := o[1..], o[2..], o[3..];
    assert o1[1..] == o2 && o2[1..] == o3 && o3[1..] == [];
    assert o[0] == OneDay && o1[0] == TwoDays && o2[0] == OneWeek && o3[0] == OneMonth;
    assert Within(o3, diff) == (if 0 < diff <= 720 * HOUR_MS then [OneMonth] else []) + Within([], diff);
    assert Within(o2, diff) == (if 0 < diff <= 168 * HOUR_MS then [OneWeek] else []) + Within(o3, diff);
    assert Within(o1, diff) == (if 0 < diff <= 48 * HOUR_MS then [TwoDays] else []) + Within(o2, diff);
    assert Within(o, diff) == (if 0 < diff <= 24 * HOUR_MS then [OneDay] else []) + Within(o1, diff);
  }

  /** A schedule is reported iff the due time is ahead and within its threshold. */
  lemma ScheduleReported(diff: int, s: ReminderSchedule)
    ensures s in Within(SCHEDULE_ORDER, diff) <==> 0 < diff <= ThresholdHours(s) * HOUR_MS
  {
    WithinOrder(diff);
  }

  /** The report is always a suffix of the order, one-day first, and empty
      iff the due time is past or more than 720 hours away. */
  lemma ReportIsSuffix(diff: int)
    ensures exists k :: 0 <= k <= |SCHEDULE_ORDER| && Within(SCHEDULE_ORDER, diff) == SCHEDULE_ORDER[k..]
    ensures Within(SCHEDULE_ORDER, diff) == [] <==> diff <= 0 || diff > 720 * HOUR_MS
  {
    WithinOrder(diff);
    var o := SCHEDULE_ORDER;
    var k := if diff <= 0 || diff > 720 * HOUR_MS then 4
             else if diff <= 24 * HOUR_MS then 0
             else if diff <= 48 * HOUR_MS then 1
             else if diff <= 168 * HOUR_MS then 2
             else 3;
    assert Within(o, diff) == o[k..];
  }

  /** `Math.round(n / d)`: the nearest whole number, halves rounded up. */
  function RoundDiv(n: int, d: int): (q: int)
    requires d > 0
    ensures 2 * d * q - d <= 2 * n < 2 * d * q + d
  {
    var q := (2 * n + d) / (2 * d);
    assert 2 * n + d == 2 * d * q + (2 * n + d) % (2 * d);
    q
  }

  /** The `timeText` of `showReminderNotification`. */
  function TimeText(diff: int): string {
    if diff < HOUR_MS then "less than 1 hour"
    else if diff < 24 * HOUR_MS then IntToString(RoundDiv(diff, HOUR_MS)) + " hours"
    else IntToString(RoundDiv(diff, 24 * HOUR_MS)) + " days"
  }

  /** The text of the warning `showReminderNotification` shows. */
  function Message(reminder: Reminder, diff: int): string {
    MessageText(reminder, diff, 1)
  }

  /** The warning text reached after `k` further unfoldings. The indirection
      keeps the text out of the proofs that only collect warnings;
      `MessageIs` states it. */
  function MessageText(reminder: Reminder, diff: int, k: nat): string {
    if k > 0 then MessageText(reminder, diff, k - 1)
    else "Reminder: " + reminder.name + " is due in " + TimeText(diff)
  }

  lemma MessageIs(reminder: Reminder, diff: int)
    ensures Message(reminder, diff) == "Reminder: " + reminder.name + " is due in " + TimeText(diff)
  {
    assert MessageText(reminder, diff, 1) == MessageText(reminder, diff, 0);
  }

  /** A reminder the check warns about: due within the next 24 hours and
      inside one of its schedule windows. */
  predicate Due(reminder: Reminder, now: int) {
    var diff := reminder.dueTime - now;
    0 < diff <= 24 * HOUR_MS && Notifies(reminder.reminderSchedule, diff)
  }

  /** The warnings for `list`, in list order. */
  function DueMessages(list: seq<Reminder>, now: int): seq<string> {
    if list == [] then []
    else
      var last := list[|list| - 1];
      DueMessages(list[..|list| - 1], now) + (if Due(last, now) then [Message(last, last.dueTime - now)] else [])
  }

  lemma SmallNumerals()
    ensures IntToString(1) == "1" && IntToString(23) == "23" && IntToString(24) == "24"
  {
    assert NatToString(2) == "2";
    assert NatToString(23) == NatToString(2) + [DigitChar(3)];
    assert NatToString(24) == NatToString(2) + [DigitChar(4)];
  }

  /** In the last hour before a full day, the hours round to 23 or 24. */
  lemma LastHourRounds(diff: int)
    requires 23 * HOUR_MS < diff < 24 * HOUR_MS
    ensures RoundDiv(diff, HOUR_MS) in {23, 24}
  {
    var q := RoundDiv(diff, HOUR_MS);
    assert 2 * HOUR_MS * q - HOUR_MS <= 2 * diff < 2 * HOUR_MS * q + HOUR_MS;
  }

  /** Every warning the check can show says the reminder is due in 23
      hours, 24 hours or 1 day. */
  lemma DueText(reminder: Reminder, now: int)
    requires Due(reminder, now)
    ensures TimeText(reminder.dueTime - now) in {"23 hours", "24 hours", "1 days"}
  {
    var diff := reminder.dueTime - now;
    OnlyOneDayFires(reminder.reminderSchedule, diff);
    SmallNumerals();
    if diff < 24 * HOUR_MS {
      LastHourRounds(diff);
      var q := RoundDiv(diff, HOUR_MS);
      assert TimeText(diff) == IntToString(q) + " hours";
      if q == 23 {
        assert TimeText(diff) == "23" + " hours" == "23 hours";
      } else {
        assert TimeText(diff) == "24" + " hours" == "24 hours";
      }
    } else {
      assert RoundDiv(diff, 24 * HOUR_MS) == 1;
      assert TimeText(diff) == "1" + " days" == "1 days";
    }
  }

  /** One pass of the loop: the warning for one reminder, if any. */
  method WarnOne(reminder: Reminder, now: int) returns (shown: seq<string>)
    ensures shown == if Due(reminder, now) then [Message(reminder, reminder.dueTime - now)] else []
  {
    var diff := reminder.dueTime - now;
    shown := [];
    if diff > 0 && diff <= 24 * HOUR_MS {
      var shouldNotify := ShouldShowNotification(reminder, diff);
      if shouldNotify {
        shown := [Message(reminder, diff)];
      }
    }
  }

  lemma DueMessagesSnoc(list: seq<Reminder>, i: int, now: int)
    requires 0 <= i < |list|
    ensures DueMessages(list[..i + 1], now) == DueMessages(list[..i], now)
      + (if Due(list[i], now) then [Message(list[i], list[i].dueTime - now)] else [])
  {
    assert list[..i + 1][..i] == list[..i];
  }

  /** Every warning collected belongs to a reminder of the list that is due. */
  lemma {:induction false} DueMessagesFrom(list: seq<Reminder>, now: int, m: string)
    requires m in DueMessages(list, now)
    ensures exists i :: 0 <= i < |list| && Due(list[i], now) && m == Message(list[i], list[i].dueTime - now)
  {
    var init, last := list[..|list| - 1], list[|list| - 1];
    if m in DueMessages(init, now) {
      DueMessagesFrom(init, now, m);
      var i :| 0 <= i < |init| && Due(init[i], now) && m == Message(init[i], init[i].dueTime - now);
      assert list[i] == init[i];
    }
  }

  /** The loop of `checkForDueReminders` over the store's list. */
  method WarnAll(list: seq<Reminder>, now: int) returns (shown: seq<string>)
    ensures shown == DueMessages(list, now)
  {
    shown := [];
    for i := 0 to |list|
      invariant shown == DueMessages(list[..i], now)
    {
      var one := WarnOne(list[i], now);
      DueMessagesSnoc(list, i, now);
      shown := shown + one;
    }
    assert list[..|list|] == list;
  }

  /** `checkForDueReminders(userId)`: refreshes the store unless its list is
      fresh, then returns the warnings it shows, in list order. A failed
      refresh is swallowed and nothing is shown. */
  method CheckForDueReminders(store: RemindersStore, db: Firestore, storage: LocalStorage, userId: string,
                              fetchNow: int, syncedAt: int, now: int)
    returns (shown: seq<string>)
    modifies store, db`budget, storage
    ensures old(store.IsFresh(fetchNow)) ==>
      && store.reminders == old(store.reminders) && store.lastSyncTime == old(store.lastSyncTime)
      && db.budget == old(db.budget) && storage.items == old(storage.items)
      && shown == DueMessages(store.reminders, now)
    ensures !old(store.IsFresh(fetchNow)) ==>
      var token := SeenToken(db, userId, old(db.budget));
      var hit := FromCache(old(storage.items), userId, token, false);
      var outcome := Outcome(old(storage.items), userId, token, false, Serves(old(db.budget), 2), db.ReminderDocs(userId));
      && db.budget == Spend(old(db.budget), if hit.Some? then 1 else 2)
      && storage.items == (if hit.None? && outcome.Ok? then Stored(old(storage.items), userId, outcome.value, token) else old(storage.items))
      && store.reminders == (if outcome.Ok? then outcome.value else old(store.reminders))
      && store.lastSyncTime == (if outcome.Ok? then Some(syncedAt) else old(store.lastSyncTime))
      && shown == if outcome.Ok? then DueMessages(outcome.value, now) else []
  {
    var fetched := store.FetchReminders(db, storage, userId, false, fetchNow, syncedAt);
    if fetched.Err? {
      return [];
    }
    shown := WarnAll(store.reminders, now);
  }
}
