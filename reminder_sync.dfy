/** The reminder sync (`ReminderSyncService`, src/services/reminderSync.ts):
    a user's reminder list is cached in localStorage under `reminders_{u}`
    together with the server token it was fetched under, `remindersToken_{u}`.
    The server token is the `timestamp` field of `users/{u}/tokens/remindersToken`,
    which every write replaces with `serverTimestamp()`; the text that
    timestamp prints as is a parameter. A read answers from the cache only
    while the cached token equals the server token; every write removes both
    keys, so the next read fetches. */
module ReminderSync {
  import opened Wrappers
  import opened Entities
  import opened Firestore
  import opened UserReminders

  /** A localStorage value. `Json(list)` is the text `JSON.stringify(list)`,
      which `JSON.parse` reads back as `list` and which is never empty;
      `Text(s)` is any other text, which `JSON.parse` rejects. A JSON text is
      never equal to a server token. */
  datatype Item = Text(text: string) | Json(list: seq<Reminder>)

  /** JavaScript truthiness of the text `getItem` returns. */
  predicate Present(i: Option<Item>) {
    match i
    case None => false
    case Some(Text(s)) => s != ""
    case Some(Json(_)) => true
  }

  /** `window.localStorage`, which never fails here. */
  class LocalStorage {
    var items: map<string, Item>

    constructor ()
      ensures items == map[]
    {
      items := map[];
    }

    /** `getItem(key)` */
    function Get(key: string): Option<Item>
      reads this
    {
      if key in items then Some(items[key]) else None
    }

    /** `setItem(key, value)` */
    method SetItem(key: string, value: Item)
      modifies this
      ensures items == old(items)[key := value]
    {
      items := items[key := value];
    }

    /** `removeItem(key)` */
    method RemoveItem(key: string)
      modifies this
      ensures items == old(items) - {key}
    {
      items := items - {key};
    }
  }

  function RemindersKey(userId: string): string {
    "reminders_" + userId
  }

  function TokenKey(userId: string): string {
    "remindersToken_" + userId
  }

  /** A list key is never a token key, and two users never share a key. */
  lemma KeysDistinct(u: string, v: string)
    ensures RemindersKey(u) != TokenKey(v)
    ensures u != v ==> RemindersKey(u) != RemindersKey(v) && TokenKey(u) != TokenKey(v)
  {
    assert RemindersKey(u)[9] == '_' && TokenKey(v)[9] == 'T';
    if u != v {
      assert RemindersKey(u)[10..] == u && RemindersKey(v)[10..] == v;
      assert TokenKey(u)[15..] == u && TokenKey(v)[15..] == v;
    }
  }

  function Lookup(items: map<string, Item>, key: string): Option<Item> {
    if key in items then Some(items[key]) else None
  }

  /** The store with both keys of `userId` removed (`clearCache(userId)`). */
  function Cleared(items: map<string, Item>, userId: string): map<string, Item> {
    items - {RemindersKey(userId), TokenKey(userId)}
  }

  /** The store after a fetch under `token`: the list is cached, and the
      token key is written only when there is a server token. */
  function Stored(items: map<string, Item>, userId: string, list: seq<Reminder>, token: Option<string>): map<string, Item> {
    var withList := items[RemindersKey(userId) := Json(list)];
    if token.Some? then withList[TokenKey(userId) := Text(token.value)] else withList
  }

  /** What `getReminders` answers from the cache under the server token
      `token` it read: Some(outcome) when it answers from the cache, None
      when it goes on to fetch. It answers from the cache iff the read is not
      forced, the cached token is present and equals the server token, and a
      cached list is present. */
  function FromCache(items: map<string, Item>, userId: string, token: Option<string>, forceRefresh: bool)
    : (r: Option<Result<seq<Reminder>>>)
    ensures r.Some? <==> (!forceRefresh && token.Some? && token.value != ""
      && Lookup(items, TokenKey(userId)) == Some(Text(token.value)) && Present(Lookup(items, RemindersKey(userId))))
    ensures r.Some? && r.value.Ok? ==> Lookup(items, RemindersKey(userId)) == Some(Json(r.value.value))
  {
    var cacheToken := Lookup(items, TokenKey(userId));
    if !forceRefresh && Present(cacheToken) && token.Some? && token.value != "" && cacheToken == Some(Text(token.value)) then
      var cached := Lookup(items, RemindersKey(userId));
      if Present(cached) then
        Some(match cached.value case Json(list) => Ok(list) case Text(_) => Err(SyntaxError))
      else None
    else None
  }

  /** Without a server token the cache is never used. */
  lemma NoTokenMeansMiss(items: map<string, Item>, userId: string, forceRefresh: bool)
    ensures FromCache(items, userId, None, forceRefresh) == None
  {
  }

  /** A list cached under a server token is what the next unforced read
      under the same token returns; one cached without a token is never read
      back. */
  lemma StoredIsReadBack(items: map<string, Item>, userId: string, list: seq<Reminder>, token: Option<string>)
    ensures FromCache(Stored(items, userId, list, token), userId, token, false)
      == if token.Some? && token.value != "" then Some(Ok(list)) else None
  {
    KeysDistinct(userId, userId);
  }

  /** After the keys of a user are removed, no read of that user is answered
      from the cache: the next `getReminders` fetches. */
  lemma ClearedMeansMiss(items: map<string, Item>, userId: string, token: Option<string>, forceRefresh: bool)
    ensures FromCache(Cleared(items, userId), userId, token, forceRefresh) == None
  {
  }

  /** The keys of another user keep their values through a fetch's writes
      and through clearing. */
  lemma OtherUsersUntouched(items: map<string, Item>, userId: string, other: string, list: seq<Reminder>, token: Option<string>)
    requires other != userId
    ensures forall key :: key in {RemindersKey(other), TokenKey(other)} ==>
      Lookup(Stored(items, userId, list, token), key) == Lookup(items, key)
      && Lookup(Cleared(items, userId), key) == Lookup(items, key)
  {
    KeysDistinct(userId, other);
    KeysDistinct(other, userId);
  }

  /** So another user's reads are answered exactly as before. */
  lemma OtherUsersReadAsBefore(items: map<string, Item>, userId: string, other: string, list: seq<Reminder>,
                               token: Option<string>, otherToken: Option<string>, forceRefresh: bool)
    requires other != userId
    ensures FromCache(Stored(items, userId, list, token), other, otherToken, forceRefresh)
      == FromCache(items, other, otherToken, forceRefresh)
    ensures FromCache(Cleared(items, userId), other, otherToken, forceRefresh)
      == FromCache(items, other, otherToken, forceRefresh)
  {
    OtherUsersUntouched(items, userId, other, list, token);
    assert RemindersKey(other) in {RemindersKey(other), TokenKey(other)};
    assert TokenKey(other) in {RemindersKey(other), TokenKey(other)};
  }

  /** The server token as `getRemindersToken` reads it: a truthy `timestamp`
      field of the token document, None otherwise. */
  function ServerToken(db: Firestore, userId: string): (t: Option<string>)
    reads db`tokens
    ensures t.Some? ==> t.value != ""
  {
    var f := db.TokenField(userId, REMINDERS_TOKEN, "timestamp");
    if Truthy(f) then f else None
  }

  /** The token a read sees: the server token, or None when the read fails
      (`getRemindersToken` swallows the error). */
  function SeenToken(db: Firestore, userId: string, b: Option<nat>): Option<string>
    reads db`tokens
  {
    if Serves(b, 1) then ServerToken(db, userId) else None
  }

  /** `getRemindersToken(userId)`: never throws. */
  method GetRemindersToken(db: Firestore, userId: string) returns (t: Option<string>)
    modifies db`budget
    ensures db.budget == Spend(old(db.budget), 1)
    ensures t == SeenToken(db, userId, old(db.budget))
  {
    var ok := db.Request();
    if !ok {
      return None;
    }
    var field := db.TokenField(userId, REMINDERS_TOKEN, "timestamp");
    t := if Truthy(field) then field else None;
  }

  /** `updateRemindersToken(userId)`: the token document becomes
      `{timestamp: serverTimestamp()}`; a failure is rethrown. */
  method UpdateRemindersToken(db: Firestore, userId: string, stamp: string) returns (r: Result<()>)
    modifies db`budget, db`tokens
    ensures db.budget == Spend(old(db.budget), 1)
    ensures r == if Serves(old(db.budget), 1) then Ok(()) else Err(NetworkError)
    ensures db.tokens == if r.Ok? then old(db.tokens)[(userId, REMINDERS_TOKEN) := map["timestamp" := stamp]] else old(db.tokens)
  {
    var ok := db.Request();
    if !ok {
      return Err(NetworkError);
    }
    db.tokens := db.tokens[(userId, REMINDERS_TOKEN) := map["timestamp" := stamp]];
    return Ok(());
  }

  /** The outcome of `getReminders`, given the store and server token it
      saw, whether its fetch succeeded and the documents it fetched. */
  function Outcome(items: map<string, Item>, userId: string, token: Option<string>, forceRefresh: bool,
                   fetched: bool, docs: seq<Doc<Reminder>>): Result<seq<Reminder>>
  {
    match FromCache(items, userId, token, forceRefresh)
    case Some(answer) => answer
    case None => if fetched then Ok(SortByDue(Listed(docs))) else Err(NetworkError)
  }

  /** The two `getItem` reads of `getReminders` and the answer they give. */
  method ReadCache(storage: LocalStorage, userId: string, currentToken: Option<string>, forceRefresh: bool)
    returns (answer: Option<Result<seq<Reminder>>>)
    ensures answer == FromCache(storage.items, userId, currentToken, forceRefresh)
  {
    var cacheToken := storage.Get(TokenKey(userId));
    if !forceRefresh && Present(cacheToken) && currentToken.Some? && currentToken.value != ""
       && cacheToken == Some(Text(currentToken.value))
    {
      var cached := storage.Get(RemindersKey(userId));
      if Present(cached) {
        match cached.value
        case Json(list) => return Some(Ok(list));
        case Text(_) => return Some(Err(SyntaxError));
      }
    }
    return None;
  }

  /** `getReminders(userId, forceRefresh)`: the cached list on a hit;
      otherwise the fetched list, which is then cached under the server
      token. A failed fetch is rethrown and leaves the store as it was. */
  method GetReminders(db: Firestore, storage: LocalStorage, userId: string, forceRefresh: bool)
    returns (r: Result<seq<Reminder>>)
    modifies db`budget, storage
    ensures var token := SeenToken(db, userId, old(db.budget));
      var hit := FromCache(old(storage.items), userId, token, forceRefresh);
      && r == Outcome(old(storage.items), userId, token, forceRefresh, Serves(old(db.budget), 2), db.ReminderDocs(userId))
      && db.budget == Spend(old(db.budget), if hit.Some? then 1 else 2)
      && storage.items == if hit.None? && r.Ok? then Stored(old(storage.items), userId, r.value, token) else old(storage.items)
  {
    var currentToken := GetRemindersToken(db, userId);
    var cached := ReadCache(storage, userId, currentToken, forceRefresh);
    if cached.Some? {
      return cached.value;
    }
    r := FetchAndStore(db, storage, userId, currentToken);
  }

  /** The miss path of `getReminders`: fetch, then cache the list under the
      server token it read. */
  method FetchAndStore(db: Firestore, storage: LocalStorage, userId: string, currentToken: Option<string>)
    returns (r: Result<seq<Reminder>>)
    modifies db`budget, storage
    ensures db.budget == Spend(old(db.budget), 1)
    ensures r == if Serves(old(db.budget), 1) then Ok(SortByDue(Listed(db.ReminderDocs(userId)))) else Err(NetworkError)
    ensures storage.items == if r.Ok? then Stored(old(storage.items), userId, r.value, currentToken) else old(storage.items)
  {
    var fetched := GetUserReminders(db, userId);
    if fetched.Err? {
      return Err(fetched.error);
    }
    storage.SetItem(RemindersKey(userId), Json(fetched.value));
    if currentToken.Some? {
      storage.SetItem(TokenKey(userId), Text(currentToken.value));
    }
    return Ok(fetched.value);
  }

  /** Removes both keys of the user, as each successful write does. */
  method Invalidate(storage: LocalStorage, userId: string)
    modifies storage
    ensures storage.items == Cleared(old(storage.items), userId)
  {
    storage.RemoveItem(RemindersKey(userId));
    storage.RemoveItem(TokenKey(userId));
  }

  /** `addReminder(userId, data)`: the reminder is added, the server token
      replaced and the user's cache cleared; it returns the new id. A failure
      of either call is rethrown with the cache untouched. */
  method AddReminder(db: Firestore, storage: LocalStorage, userId: string, data: ReminderData,
                     newId: string, now: string, stamp: string)
    returns (r: Result<string>)
    requires newId !in Ids(db.ReminderDocs(userId))
    modifies db`budget, db`reminders, db`tokens, storage
    ensures db.budget == Spend(old(db.budget), if Serves(old(db.budget), 1) then 2 else 1)
    ensures r == if Serves(old(db.budget), 2) then Ok(newId) else Err(NetworkError)
    ensures db.reminders == if Serves(old(db.budget), 1)
      then old(db.reminders)[userId := old(db.ReminderDocs(userId)) + [Doc(newId, NewReminder(newId, userId, data, now))]]
      else old(db.reminders)
    ensures db.tokens == if r.Ok? then old(db.tokens)[(userId, REMINDERS_TOKEN) := map["timestamp" := stamp]] else old(db.tokens)
    ensures storage.items == if r.Ok? then Cleared(old(storage.items), userId) else old(storage.items)
  {
    var added := UserReminders.AddReminder(db, userId, data, newId, now);
    if added.Err? {
      return Err(added.error);
    }
    var updated := UpdateRemindersToken(db, userId, stamp);
    if updated.Err? {
      return Err(updated.error);
    }
    Invalidate(storage, userId);
    return Ok(added.value);
  }

  /** `updateReminder(userId, id, patch)`: the reminder is patched, the
      server token replaced and the user's cache cleared. */
  method UpdateReminder(db: Firestore, storage: LocalStorage, userId: string, reminderId: string,
                        patch: ReminderPatch, now: string, stamp: string)
    returns (r: Result<()>)
    modifies db`budget, db`reminders, db`tokens, storage
    ensures var stored := Find(old(db.ReminderDocs(userId)), reminderId);
      var patched := Serves(old(db.budget), 1) && stored.Some?;
      && db.budget == Spend(old(db.budget), if patched then 2 else 1)
      && r == (if !Serves(old(db.budget), 1) || (patched && !Serves(old(db.budget), 2)) then Err(NetworkError)
               else if stored.None? then Err(NotFound) else Ok(()))
      && db.reminders == (if patched
           then old(db.reminders)[userId := Put(old(db.ReminderDocs(userId)), reminderId, Patched(stored.value, patch, now))]
           else old(db.reminders))
      && db.tokens == (if r.Ok? then old(db.tokens)[(userId, REMINDERS_TOKEN) := map["timestamp" := stamp]] else old(db.tokens))
      && storage.items == if r.Ok? then Cleared(old(storage.items), userId) else old(storage.items)
  {
    var patchedOk := UserReminders.UpdateReminder(db, userId, reminderId, patch, now);
    if patchedOk.Err? {
      return Err(patchedOk.error);
    }
    var updated := UpdateRemindersToken(db, userId, stamp);
    if updated.Err? {
      return Err(updated.error);
    }
    Invalidate(storage, userId);
    return Ok(());
  }

  /** `deleteReminder(userId, id)`: the reminder is deleted, the server
      token replaced and the user's cache cleared. */
  method DeleteReminder(db: Firestore, storage: LocalStorage, userId: string, reminderId: string, stamp: string)
    returns (r: Result<()>)
    modifies db`budget, db`reminders, db`tokens, storage
    ensures db.budget == Spend(old(db.budget), if Serves(old(db.budget), 1) then 2 else 1)
    ensures r == if Serves(old(db.budget), 2) then Ok(()) else Err(NetworkError)
    ensures db.reminders == if Serves(old(db.budget), 1)
      then old(db.reminders)[userId := Without(old(db.ReminderDocs(userId)), reminderId)]
      else old(db.reminders)
    ensures db.tokens == if r.Ok? then old(db.tokens)[(userId, REMINDERS_TOKEN) := map["timestamp" := stamp]] else old(db.tokens)
    ensures storage.items == if r.Ok? then Cleared(old(storage.items), userId) else old(storage.items)
  {
    var deleted := UserReminders.DeleteReminder(db, userId, reminderId);
    if deleted.Err? {
      return Err(deleted.error);
    }
    var updated := UpdateRemindersToken(db, userId, stamp);
    if updated.Err? {
      return Err(updated.error);
    }
    Invalidate(storage, userId);
    return Ok(());
  }

  /** `clearCache(userId)` */
  method ClearCache(storage: LocalStorage, userId: string)
    modifies storage
    ensures storage.items == Cleared(old(storage.items), userId)
  {
    Invalidate(storage, userId);
  }
}
