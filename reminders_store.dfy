/** The reminders store (src/stores/modules/reminders.ts): an in-memory copy
    of the user's reminders, refreshed through the reminder sync at most once
    per 30 seconds unless forced, and kept up to date by the store's own
    writes. Clock readings (`Date.now()`, `new Date().toISOString()`) are
    parameters. A reminder's calendar date, `toISOString().split('T')[0]`,
    is represented by its UTC day number: the date text is a one-to-one
    image of it. */
module RemindersStore {
  import opened Wrappers
  import opened Entities
  import opened Firestore
  import opened UserReminders
  import opened ReminderSync

  /** How long a fetched list counts as fresh, in milliseconds. */
  const FRESH_MS: int := 30000

  const MS_PER_DAY: int := 86_400_000

  /** The UTC day a moment falls on (days since 1970-01-01, floored). */
  function DayKey(ms: int): int {
    ms / MS_PER_DAY
  }

  /** The reminders of `s` due after `now`, in their order in `s`. */
  function Future(s: seq<Reminder>, now: int): seq<Reminder> {
    if s == [] then [] else (if s[0].dueTime > now then [s[0]] else []) + Future(s[1..], now)
  }

  lemma {:induction false} FutureMembers(s: seq<Reminder>, now: int, x: Reminder)
    ensures multiset(Future(s, now))[x] == if x.dueTime > now then multiset(s)[x] else 0
  {
    if s != [] {
      FutureMembers(s[1..], now, x);
      assert s == [s[0]] + s[1..];
    }
  }

  /** The reminders of `s` due on the UTC day `day`, in their order in `s`. */
  function OnDate(s: seq<Reminder>, day: int): seq<Reminder> {
    if s == [] then []
    else OnDate(s[..|s| - 1], day) + (if DayKey(s[|s| - 1].dueTime) == day then [s[|s| - 1]] else [])
  }

  /** A day's group holds exactly the reminders due that day, each as often
      as the list does. */
  lemma {:induction false} OnDateMembers(s: seq<Reminder>, day: int, x: Reminder)
    ensures multiset(OnDate(s, day))[x] == if DayKey(x.dueTime) == day then multiset(s)[x] else 0
  {
    if s != [] {
      var init, last := s[..|s| - 1], s[|s| - 1];
      OnDateMembers(init, day, x);
      assert s == init + [last];
    }
  }

  /** The days some reminder of `s` is due on. */
  function Days(s: seq<Reminder>): set<int> {
    set i | 0 <= i < |s| :: DayKey(s[i].dueTime)
  }

  /** The grouping `remindersByDate` computes: one group per day some
      reminder is due on. */
  predicate IsGrouping(grouped: map<int, seq<Reminder>>, s: seq<Reminder>) {
    grouped.Keys == Days(s)
    && (forall day :: day in grouped ==> grouped[day] == OnDate(s, day))
  }

  /** Every reminder is in the group of its own day and in no other. */
  lemma ExactlyOneGroup(grouped: map<int, seq<Reminder>>, s: seq<Reminder>, i: int)
    requires IsGrouping(grouped, s) && 0 <= i < |s|
    ensures DayKey(s[i].dueTime) in grouped && s[i] in grouped[DayKey(s[i].dueTime)]
    ensures forall day :: day in grouped && day != DayKey(s[i].dueTime) ==> s[i] !in grouped[day]
  {
    var x := s[i];
    assert DayKey(x.dueTime) in Days(s);
    OnDateMembers(s, DayKey(x.dueTime), x);
    assert x in multiset(s);
    forall day | day in grouped && day != DayKey(x.dueTime) ensures x !in grouped[day] {
      OnDateMembers(s, day, x);
    }
  }

  /** Drops every reminder with id `id`, keeping the others in order. */
  function WithoutId(s: seq<Reminder>, id: string): seq<Reminder> {
    if s == [] then [] else (if s[0].id == id then [] else [s[0]]) + WithoutId(s[1..], id)
  }

  /** `filter(r => r.id !== id)` keeps exactly the reminders with another id,
      each as often as before. */
  lemma {:induction false} WithoutIdMembers(s: seq<Reminder>, id: string, x: Reminder)
    ensures multiset(WithoutId(s, id))[x] == if x.id == id then 0 else multiset(s)[x]
  {
    if s != [] {
      WithoutIdMembers(s[1..], id, x);
      assert s == [s[0]] + s[1..];
    }
  }

  /** The filter keeps the order: it distributes over concatenation. */
  lemma {:induction false} WithoutIdAppend(a: seq<Reminder>, b: seq<Reminder>, id: string)
    ensures WithoutId(a + b, id) == WithoutId(a, id) + WithoutId(b, id)
  {
    if a != [] {
      WithoutIdAppend(a[1..], b, id);
      assert (a + b)[1..] == a[1..] + b;
    } else {
      assert a + b == b;
    }
  }

  /** `findIndex(r => r.id === id)`: the first position holding that id, -1 if none. */
  function IndexOf(s: seq<Reminder>, id: string): (i: int)
    ensures -1 <= i < |s|
    ensures i == -1 <==> forall k :: 0 <= k < |s| ==> s[k].id != id
    ensures i >= 0 ==> s[i].id == id && forall k :: 0 <= k < i ==> s[k].id != id
  {
    if s == [] then -1
    else if s[0].id == id then 0
    else
      var i := IndexOf(s[1..], id);
      assert forall k :: 1 <= k < |s| ==> s[k] == s[1..][k - 1];
      if i == -1 then -1 else i + 1
  }

  /** The list after the store's `updateReminder`: the first reminder with
      that id is patched and stamped, and every other entry is untouched;
      without such a reminder the list is unchanged. */
  function UpdatedList(s: seq<Reminder>, id: string, patch: ReminderPatch, now: string): (r: seq<Reminder>)
    ensures |r| == |s|
    ensures IndexOf(s, id) == -1 ==> r == s
    ensures IndexOf(s, id) >= 0 ==> r[IndexOf(s, id)] == Patched(s[IndexOf(s, id)], patch, now)
    ensures forall k :: 0 <= k < |s| && k != IndexOf(s, id) ==> r[k] == s[k]
    ensures forall k :: 0 <= k < |s| ==> r[k].id == s[k].id
  {
    var i := IndexOf(s, id);
    if i == -1 then s else s[i := Patched(s[i], patch, now)]
  }

  class RemindersStore {
    var reminders: seq<Reminder>
    /** The moment of the last successful fetch; None: never, or cleared. */
    var lastSyncTime: Option<int>

    constructor ()
      ensures reminders == [] && lastSyncTime == None
    {
      reminders := [];
      lastSyncTime := None;
    }

    /** `lastSyncTime.value && Date.now() - lastSyncTime.value < 30000`
        (a time of 0 is falsy). */
    predicate IsFresh(now: int)
      reads this
    {
      lastSyncTime.Some? && lastSyncTime.value != 0 && now - lastSyncTime.value < FRESH_MS
    }

    /** `futureReminders`: the reminders due after `now`, earliest first. */
    function FutureReminders(now: int): seq<Reminder>
      reads this
    {
      SortByDue(Future(reminders, now))
    }

    /** `fetchReminders(userId, forceRefresh)`: a fresh list is kept without
        any call; otherwise the list is what `getReminders` returns and the
        sync time is `syncedAt`. A failure is rethrown with both unchanged. */
    method FetchReminders(db: Firestore, storage: LocalStorage, userId: string, forceRefresh: bool,
                          now: int, syncedAt: int)
      returns (r: Result<()>)
      modifies this, db`budget, storage
      ensures !forceRefresh && old(IsFresh(now)) ==>
        r == Ok(()) && reminders == old(reminders) && lastSyncTime == old(lastSyncTime)
        && db.budget == old(db.budget) && storage.items == old(storage.items)
      ensures forceRefresh || !old(IsFresh(now)) ==>
        var outcome := Outcome(old(storage.items), userId, SeenToken(db, userId, old(db.budget)), forceRefresh,
                               Serves(old(db.budget), 2), db.ReminderDocs(userId));
        && (r.Ok? <==> outcome.Ok?)
        && (r.Err? ==> r.error == outcome.error && reminders == old(reminders) && lastSyncTime == old(lastSyncTime))
        && (r.Ok? ==> reminders == outcome.value && lastSyncTime == Some(syncedAt))
      ensures forceRefresh || !old(IsFresh(now)) ==>
        var token := SeenToken(db, userId, old(db.budget));
        var hit := FromCache(old(storage.items), userId, token, forceRefresh);
        && db.budget == Spend(old(db.budget), if hit.Some? then 1 else 2)
        && storage.items == if hit.None? && r.Ok? then Stored(old(storage.items), userId, reminders, token) else old(storage.items)
    {
      if !forceRefresh && lastSyncTime.Some? && lastSyncTime.value != 0 && now - lastSyncTime.value < FRESH_MS {
        return Ok(());
      }
      var fetched := GetReminders(db, storage, userId, forceRefresh);
      if fetched.Err? {
        return Err(fetched.error);
      }
      reminders := fetched.value;
      lastSyncTime := Some(syncedAt);
      return Ok(());
    }

    /** `addReminder(userId, data)`: after the sync has added it, the new
        reminder is appended with the returned id; `createdAt` and
        `updatedAt` are two separate clock readings. */
    method AddReminder(db: Firestore, storage: LocalStorage, userId: string, data: ReminderData,
                       newId: string, now: string, stamp: string, createdAt: string, updatedAt: string)
      returns (r: Result<string>)
      requires newId !in Ids(db.ReminderDocs(userId))
      modifies this`reminders, db`budget, db`reminders, db`tokens, storage
      ensures r == if Serves(old(db.budget), 2) then Ok(newId) else Err(NetworkError)
      ensures db.budget == Spend(old(db.budget), if Serves(old(db.budget), 1) then 2 else 1)
      ensures db.reminders == if Serves(old(db.budget), 1)
        then old(db.reminders)[userId := old(db.ReminderDocs(userId)) + [Doc(newId, NewReminder(newId, userId, data, now))]]
        else old(db.reminders)
      ensures db.tokens == if r.Ok? then old(db.tokens)[(userId, REMINDERS_TOKEN) := map["timestamp" := stamp]] else old(db.tokens)
      ensures storage.items == if r.Ok? then Cleared(old(storage.items), userId) else old(storage.items)
      ensures reminders == if r.Ok?
        then old(reminders) + [Reminder(newId, data.name, data.dueTime, data.reminderSchedule, userId, createdAt, updatedAt)]
        else old(reminders)
    {
      var added := ReminderSync.AddReminder(db, storage, userId, data, newId, now, stamp);
      if added.Err? {
        return Err(added.error);
      }
      reminders := reminders + [Reminder(added.value, data.name, data.dueTime, data.reminderSchedule, userId, createdAt, updatedAt)];
      return Ok(added.value);
    }

    /** `updateReminder(userId, id, patch)`: after the sync has written it,
        the first local entry with that id is patched, if there is one. */
    method UpdateReminder(db: Firestore, storage: LocalStorage, userId: string, reminderId: string,
                          patch: ReminderPatch, now: string, stamp: string, localNow: string)
      returns (r: Result<()>)
      modifies this`reminders, db`budget, db`reminders, db`tokens, storage
      ensures var stored := Find(old(db.ReminderDocs(userId)), reminderId);
        var patched := Serves(old(db.budget), 1) && stored.Some?;
        && db.budget == Spend(old(db.budget), if patched then 2 else 1)
        && r == (if !Serves(old(db.budget), 1) || (patched && !Serves(old(db.budget), 2)) then Err(NetworkError)
                 else if stored.None? then Err(NotFound) else Ok(()))
        && db.reminders == (if patched
             then old(db.reminders)[userId := Put(old(db.ReminderDocs(userId)), reminderId, Patched(stored.value, patch, now))]
             else old(db.reminders))
        && db.tokens == (if r.Ok? then old(db.tokens)[(userId, REMINDERS_TOKEN) := map["timestamp" := stamp]] else old(db.tokens))
        && storage.items == if r.Ok? then Cleared(old(storage.items), userId) else old(storage.items)
      ensures r.Ok? <==> Serves(old(db.budget), 2) && Find(old(db.ReminderDocs(userId)), reminderId).Some?
      ensures reminders == if r.Ok? then UpdatedList(old(reminders), reminderId, patch, localNow) else old(reminders)
    {
      var written := ReminderSync.UpdateReminder(db, storage, userId, reminderId, patch, now, stamp);
      if written.Err? {
        return Err(written.error);
      }
      var index := IndexOf(reminders, reminderId);
      if index != -1 {
        reminders := reminders[index := Patched(reminders[index], patch, localNow)];
      }
      return Ok(());
    }

    /** `deleteReminder(userId, id)`: after the sync has deleted it, every
        local entry with that id is dropped. */
    method DeleteReminder(db: Firestore, storage: LocalStorage, userId: string, reminderId: string, stamp: string)
      returns (r: Result<()>)
      modifies this`reminders, db`budget, db`reminders, db`tokens, storage
      ensures r == if Serves(old(db.budget), 2) then Ok(()) else Err(NetworkError)
      ensures db.budget == Spend(old(db.budget), if Serves(old(db.budget), 1) then 2 else 1)
      ensures db.reminders == if Serves(old(db.budget), 1)
        then old(db.reminders)[userId := Without(old(db.ReminderDocs(userId)), reminderId)]
        else old(db.reminders)
      ensures db.tokens == if r.Ok? then old(db.tokens)[(userId, REMINDERS_TOKEN) := map["timestamp" := stamp]] else old(db.tokens)
      ensures storage.items == if r.Ok? then Cleared(old(storage.items), userId) else old(storage.items)
      ensures reminders == if r.Ok? then WithoutId(old(reminders), reminderId) else old(reminders)
    {
      var deleted := ReminderSync.DeleteReminder(db, storage, userId, reminderId, stamp);
      if deleted.Err? {
        return Err(deleted.error);
      }
      reminders := WithoutId(reminders, reminderId);
      return Ok(());
    }

    /** `remindersByDate`: the `forEach` that files each reminder under its day. */
    method RemindersByDate() returns (grouped: map<int, seq<Reminder>>)
      ensures IsGrouping(grouped, reminders)
    {
      grouped := map[];
      for i := 0 to |reminders|
        invariant IsGrouping(grouped, reminders[..i])
      {
        var reminder := reminders[i];
        var day := DayKey(reminder.dueTime);
        if day !in grouped {
          grouped := grouped[day := []];
        }
        GroupStep(grouped, reminders, i);
        grouped := grouped[day := grouped[day] + [reminder]];
      }
      assert reminders[..|reminders|] == reminders;
    }

    /** `getRemindersForDate(date)`: that day's group, or `[]` when no
        reminder is due that day. */
    method GetRemindersForDate(date: int) returns (r: seq<Reminder>)
      ensures r == OnDate(reminders, DayKey(date))
      ensures forall x :: x in r <==> x in reminders && DayKey(x.dueTime) == DayKey(date)
    {
      var grouped := RemindersByDate();
      var day := DayKey(date);
      r := if day in grouped then grouped[day] else [];
      if day !in grouped {
        NoDayNoGroup(reminders, day);
      }
      forall x ensures x in r <==> x in reminders && DayKey(x.dueTime) == day {
        OnDateMembers(reminders, day, x);
      }
    }

    /** `clearCache()` */
    method ClearCache()
      modifies this
      ensures reminders == [] && lastSyncTime == None
    {
      reminders := [];
      lastSyncTime := None;
    }
  }

  /** A group under construction: the day of reminder `i` maps to the
      reminders before `i` due that day. */
  lemma GroupStep(grouped: map<int, seq<Reminder>>, s: seq<Reminder>, i: int)
    requires 0 <= i < |s|
    requires DayKey(s[i].dueTime) in grouped
    requires grouped.Keys == Days(s[..i]) + {DayKey(s[i].dueTime)}
    requires forall day :: day in grouped && day != DayKey(s[i].dueTime) ==> grouped[day] == OnDate(s[..i], day)
    requires DayKey(s[i].dueTime) in Days(s[..i]) ==> grouped[DayKey(s[i].dueTime)] == OnDate(s[..i], DayKey(s[i].dueTime))
    requires DayKey(s[i].dueTime) !in Days(s[..i]) ==> grouped[DayKey(s[i].dueTime)] == []
    ensures IsGrouping(grouped[DayKey(s[i].dueTime) := grouped[DayKey(s[i].dueTime)] + [s[i]]], s[..i + 1])
  {
    var x, day := s[i], DayKey(s[i].dueTime);
    var pre, next := s[..i], s[..i + 1];
    assert next[..|next| - 1] == pre && next[|next| - 1] == x;
    if day !in Days(pre) {
      NoDayNoGroup(pre, day);
    }
    assert Days(next) == Days(pre) + {day} by {
      forall d | d in Days(next) ensures d in Days(pre) + {day} {
        var j :| 0 <= j < |next| && DayKey(next[j].dueTime) == d;
        if j < i { assert pre[j] == next[j]; }
      }
      forall d | d in Days(pre) ensures d in Days(next) {
        var j :| 0 <= j < |pre| && DayKey(pre[j].dueTime) == d;
        assert next[j] == pre[j];
      }
      assert next[i] == x;
    }
  }

  /** No reminder of `s` is due on a day outside `Days(s)`. */
  lemma {:induction false} NoDayNoGroup(s: seq<Reminder>, day: int)
    requires day !in Days(s)
    ensures OnDate(s, day) == []
  {
    if s != [] {
      var init := s[..|s| - 1];
      assert Days(init) <= Days(s) by {
        forall d | d in Days(init) ensures d in Days(s) {
          var j :| 0 <= j < |init| && DayKey(init[j].dueTime) == d;
          assert s[j] == init[j];
        }
      }
      NoDayNoGroup(init, day);
      assert DayKey(s[|s| - 1].dueTime) in Days(s);
    }
  }

  /** `futureReminders` holds exactly the reminders due after `now`, each as
      often as the list does, ascending by due time. */
  lemma FutureRemindersCorrect(store: RemindersStore, now: int)
    ensures SortedByDue(store.FutureReminders(now))
    ensures forall x :: multiset(store.FutureReminders(now))[x] == if x.dueTime > now then multiset(store.reminders)[x] else 0
  {
    SortByDueSorted(Future(store.reminders, now));
    SortByDuePermutes(Future(store.reminders, now));
    forall x ensures multiset(store.FutureReminders(now))[x] == if x.dueTime > now then multiset(store.reminders)[x] else 0 {
      FutureMembers(store.reminders, now, x);
    }
  }
}
