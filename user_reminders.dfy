/** The remote reminder adapter (`UserReminders`,
    src/api/database/modules/subcollections/user.reminders.ts): the reminders
    of a user live in `users/{u}/reminders/{id}`, and every failure is
    rethrown as it came. A due time is a moment in milliseconds: the ISO
    strings the source stores are assumed valid and all of one fixed
    format, so that they order as those moments do. The clock reading `new Date().toISOString()` is a parameter. */
module UserReminders {
  import opened Wrappers
  import opened Entities
  import opened Firestore

  /** `ReminderFormData`: what a caller supplies for a new reminder. */
  datatype ReminderData = ReminderData(name: string, dueTime: int, reminderSchedule: seq<ReminderSchedule>)

  /** `Partial<ReminderFormData>`: None leaves a field as it is. */
  datatype ReminderPatch = ReminderPatch(
    name: Option<string>,
    dueTime: Option<int>,
    reminderSchedule: Option<seq<ReminderSchedule>>)

  /** `{...r, ...patch, updatedAt: now}`: the given fields replace the stored
      ones, the identity and the creation stamp stay, and the update stamp
      is `now`. */
  function Patched(r: Reminder, p: ReminderPatch, now: string): (x: Reminder)
    ensures x.id == r.id && x.userId == r.userId && x.createdAt == r.createdAt && x.updatedAt == now
    ensures p == ReminderPatch(None, None, None) ==> x == r.(updatedAt := now)
  {
    r.(name := p.name.GetOr(r.name),
       dueTime := p.dueTime.GetOr(r.dueTime),
       reminderSchedule := p.reminderSchedule.GetOr(r.reminderSchedule),
       updatedAt := now)
  }

  /** `{id: doc.id, ...doc.data()}`: the stored data carry no `id` field, so
      the document id is the one listed. */
  function WithDocId(d: Doc<Reminder>): Reminder {
    d.data.(id := d.id)
  }

  /** The documents of a collection as the query lists them, before ordering. */
  function Listed(docs: seq<Doc<Reminder>>): (r: seq<Reminder>)
    ensures |r| == |docs| && forall i :: 0 <= i < |docs| ==> r[i] == WithDocId(docs[i])
  {
    seq(|docs|, i requires 0 <= i < |docs| => WithDocId(docs[i]))
  }

  /** Earliest due time first. */
  predicate SortedByDue(s: seq<Reminder>) {
    forall i, j :: 0 <= i < j < |s| ==> s[i].dueTime <= s[j].dueTime
  }

  /** The reminders of `s` due at the moment `t`, in their order in `s`. */
  function DueAt(s: seq<Reminder>, t: int): seq<Reminder> {
    if s == [] then [] else (if s[0].dueTime == t then [s[0]] else []) + DueAt(s[1..], t)
  }

  /** Places `x` before the first reminder that is not due earlier than it. */
  function InsertByDue(x: Reminder, s: seq<Reminder>): seq<Reminder> {
    if s == [] || x.dueTime <= s[0].dueTime then [x] + s else [s[0]] + InsertByDue(x, s[1..])
  }

  /** The ascending order by due time that `orderBy('dueTime', 'asc')` and the
      store's `sort` by `getTime()` produce; reminders due at the same moment
      keep their relative order. */
  function SortByDue(s: seq<Reminder>): seq<Reminder> {
    if s == [] then [] else InsertByDue(s[0], SortByDue(s[1..]))
  }

  lemma {:induction false} InsertByDueKeeps(x: Reminder, s: seq<Reminder>)
    ensures multiset(InsertByDue(x, s)) == multiset{x} + multiset(s)
  {
    if s != [] && x.dueTime > s[0].dueTime {
      InsertByDueKeeps(x, s[1..]);
      assert s == [s[0]] + s[1..];
    }
  }

  /** Inserting keeps a common lower bound of the due times. */
  lemma {:induction false} InsertByDueBounded(x: Reminder, s: seq<Reminder>, b: int)
    requires b <= x.dueTime && forall k :: 0 <= k < |s| ==> b <= s[k].dueTime
    ensures forall k :: 0 <= k < |InsertByDue(x, s)| ==> b <= InsertByDue(x, s)[k].dueTime
  {
    if s != [] && x.dueTime > s[0].dueTime {
      var rest := s[1..];
      assert forall k :: 0 <= k < |rest| ==> rest[k] == s[k + 1];
      InsertByDueBounded(x, rest, b);
      var tail := InsertByDue(x, rest);
      assert forall k :: 1 <= k < |[s[0]] + tail| ==> ([s[0]] + tail)[k] == tail[k - 1];
    }
  }

  lemma {:induction false} InsertByDueSorted(x: Reminder, s: seq<Reminder>)
    requires SortedByDue(s)
    ensures SortedByDue(InsertByDue(x, s))
  {
    if s != [] && x.dueTime > s[0].dueTime {
      var head, rest := s[0], s[1..];
      assert forall k :: 0 <= k < |rest| ==> rest[k] == s[k + 1];
      InsertByDueSorted(x, rest);
      InsertByDueBounded(x, rest, head.dueTime);
      var tail := InsertByDue(x, rest);
      var r := [head] + tail;
      assert forall k :: 1 <= k < |r| ==> r[k] == tail[k - 1];
    }
  }

  lemma {:induction false} InsertByDueStable(x: Reminder, s: seq<Reminder>, t: int)
    ensures DueAt(InsertByDue(x, s), t) == (if x.dueTime == t then [x] else []) + DueAt(s, t)
  {
    var own := if x.dueTime == t then [x] else [];
    if s == [] || x.dueTime <= s[0].dueTime {
      assert ([x] + s)[1..] == s;
      assert DueAt([x] + s, t) == own + DueAt(s, t);
    } else {
      var head, rest := s[0], s[1..];
      var tail := InsertByDue(x, rest);
      var first := if head.dueTime == t then [head] else [];
      InsertByDueStable(x, rest, t);
      assert ([head] + tail)[1..] == tail;
      assert DueAt([head] + tail, t) == first + DueAt(tail, t);
      assert DueAt(s, t) == first + DueAt(rest, t);
      assert first == [] || own == [];
      assert first + (own + DueAt(rest, t)) == own + (first + DueAt(rest, t));
    }
  }

  /** The sorted list holds the same reminders, as often as the input does. */
  lemma {:induction false} SortByDuePermutes(s: seq<Reminder>)
    ensures multiset(SortByDue(s)) == multiset(s)
  {
    if s != [] {
      SortByDuePermutes(s[1..]);
      InsertByDueKeeps(s[0], SortByDue(s[1..]));
      assert s == [s[0]] + s[1..];
    }
  }

  /** The sorted list is ascending by due time. */
  lemma {:induction false} SortByDueSorted(s: seq<Reminder>)
    ensures SortedByDue(SortByDue(s))
  {
    if s != [] {
      SortByDueSorted(s[1..]);
      InsertByDueSorted(s[0], SortByDue(s[1..]));
    }
  }

  /** Stability: the reminders due at any one moment appear in the sorted
      list in exactly their input order. */
  lemma {:induction false} SortByDueStable(s: seq<Reminder>, t: int)
    ensures DueAt(SortByDue(s), t) == DueAt(s, t)
  {
    if s != [] {
      SortByDueStable(s[1..], t);
      InsertByDueStable(s[0], SortByDue(s[1..]), t);
    }
  }

  /** `getUserReminders(userId)`: every reminder of the user under its
      document id, ascending by due time. */
  method GetUserReminders(db: Firestore, userId: string) returns (r: Result<seq<Reminder>>)
    modifies db`budget
    ensures db.budget == Spend(old(db.budget), 1)
    ensures r == if Serves(old(db.budget), 1) then Ok(SortByDue(Listed(db.ReminderDocs(userId)))) else Err(NetworkError)
  {
    var ok := db.Request();
    if !ok {
      return Err(NetworkError);
    }
    return Ok(SortByDue(Listed(db.ReminderDocs(userId))));
  }

  /** The record `addReminder` stores: the form data with the owner and one
      clock reading as both stamps. */
  function NewReminder(id: string, userId: string, data: ReminderData, now: string): (x: Reminder)
    ensures x.id == id && x.userId == userId && x.createdAt == x.updatedAt == now
    ensures x.name == data.name && x.dueTime == data.dueTime && x.reminderSchedule == data.reminderSchedule
  {
    Reminder(id, data.name, data.dueTime, data.reminderSchedule, userId, now, now)
  }

  /** `addReminder(userId, data)`: stores the new reminder and returns its
      document id (`newId`, fresh as Firestore's generated ids are). */
  method AddReminder(db: Firestore, userId: string, data: ReminderData, newId: string, now: string)
    returns (r: Result<string>)
    requires newId !in Ids(db.ReminderDocs(userId))
    modifies db`budget, db`reminders
    ensures db.budget == Spend(old(db.budget), 1)
    ensures r == if Serves(old(db.budget), 1) then Ok(newId) else Err(NetworkError)
    ensures db.reminders == if r.Ok?
      then old(db.reminders)[userId := old(db.ReminderDocs(userId)) + [Doc(newId, NewReminder(newId, userId, data, now))]]
      else old(db.reminders)
  {
    var ok := db.Request();
    if !ok {
      return Err(NetworkError);
    }
    db.reminders := db.reminders[userId := db.ReminderDocs(userId) + [Doc(newId, NewReminder(newId, userId, data, now))]];
    return Ok(newId);
  }

  /** `updateReminder(userId, id, patch)`: only the given fields of that one
      reminder change, and its update stamp; `updateDoc` rejects a missing
      document. */
  method UpdateReminder(db: Firestore, userId: string, reminderId: string, patch: ReminderPatch, now: string)
    returns (r: Result<()>)
    modifies db`budget, db`reminders
    ensures db.budget == Spend(old(db.budget), 1)
    ensures var stored := Find(old(db.ReminderDocs(userId)), reminderId);
      && (r == if !Serves(old(db.budget), 1) then Err(NetworkError) else if stored.None? then Err(NotFound) else Ok(()))
      && (r.Err? ==> db.reminders == old(db.reminders))
      && (r.Ok? ==> db.reminders == old(db.reminders)[userId :=
            Put(old(db.ReminderDocs(userId)), reminderId, Patched(stored.value, patch, now))])
  {
    var ok := db.Request();
    if !ok {
      return Err(NetworkError);
    }
    var stored := Find(db.ReminderDocs(userId), reminderId);
    if stored.None? {
      return Err(NotFound);
    }
    db.reminders := db.reminders[userId := Put(db.ReminderDocs(userId), reminderId, Patched(stored.value, patch, now))];
    return Ok(());
  }

  /** `deleteReminder(userId, id)`: the document is gone; deleting a missing
      document succeeds. */
  method DeleteReminder(db: Firestore, userId: string, reminderId: string) returns (r: Result<()>)
    modifies db`budget, db`reminders
    ensures db.budget == Spend(old(db.budget), 1)
    ensures r == if Serves(old(db.budget), 1) then Ok(()) else Err(NetworkError)
    ensures db.reminders == if r.Ok?
      then old(db.reminders)[userId := Without(old(db.ReminderDocs(userId)), reminderId)]
      else old(db.reminders)
  {
    var ok := db.Request();
    if !ok {
      return Err(NetworkError);
    }
    db.reminders := db.reminders[userId := Without(db.ReminderDocs(userId), reminderId)];
    return Ok(());
  }
}
