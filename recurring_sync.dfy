/** The recurring expense sync (`RecurringSyncService`,
    src/services/recurringSync.ts): the active definitions are cached in the
    snapshot's `recurringExpenses` together with a local copy
    (`tokens.recurringTransactionToken`) of the remote token
    `users/{u}/tokens/recurringTransactionToken`. Every token it mints
    (`new Date().toISOString()`) is the parameter `newToken`; the cache and
    the database are parameters where the source uses module singletons.

    The definition delete of src/api/database/modules/subcollections/user.recurringExpenses.ts
    is modelled here too, because it ends in a forced refresh of this sync. */
module RecurringSync {
  import opened Wrappers
  import opened Dates
  import opened Entities
  import opened Firestore
  import opened Cache
  import opened UserRecurringExpenses

  /** `store?.tokens?.recurringTransactionToken` */
  function CachedToken(s: Option<CacheStore>): Option<string> {
    if s.Some? then s.value.tokens.recurringTransactionToken else None
  }

  /** `!forceRefresh && cachedToken`: whether the remote token is asked for. */
  predicate ChecksRemote(s: Option<CacheStore>, forceRefresh: bool) {
    !forceRefresh && Truthy(CachedToken(s))
  }

  /** `remoteToken && remoteToken === cachedToken && cachedData` */
  predicate Matches(s: Option<CacheStore>, remote: Option<string>) {
    Truthy(remote) && remote == CachedToken(s) && s.Some? && s.value.recurringExpenses.Some?
  }

  /** The remote token as the database holds it: `docSnap.data()?.token`. */
  function RemoteToken(db: Firestore, userId: string): Option<string>
    reads db`tokens
  {
    db.TokenField(userId, RECURRING_EXPENSES_TOKEN, "token")
  }

  /** What every successful recurring operation leaves: the cached list is
      `list` under a local token equal to the remote one. */
  predicate InSync(s: Option<CacheStore>, remote: Option<string>, list: seq<RecurringExpense>) {
    s.Some? && s.value.recurringExpenses == Some(list) && CachedToken(s) == remote
  }

  /** Whether `getRecurringExpenses` answers from the cache, given the
      snapshot, the budget and the remote token before the call: not forced,
      a truthy local token, the remote read served, and that token matching
      with a list cached. */
  predicate Hit(s: Option<CacheStore>, forceRefresh: bool, b: Option<nat>, remote: Option<string>) {
    ChecksRemote(s, forceRefresh) && Serves(b, 1) && Matches(s, remote)
  }

  /** The budget the reload starts with: one call fewer when the remote
      token was read first. */
  function ReloadBudget(s: Option<CacheStore>, forceRefresh: bool, b: Option<nat>): Option<nat> {
    if ChecksRemote(s, forceRefresh) then Spend(b, 1) else b
  }

  /** The snapshot a reload starting with budget `b` leaves: the list under
      the new local token once the query was served. */
  function Reloaded(s: Option<CacheStore>, b: Option<nat>, list: seq<RecurringExpense>, newToken: string): Option<CacheStore> {
    if Serves(b, 1) then Some(WithRecurring(s, list, newToken)) else s
  }

  /** The token documents after `setRemoteToken(userId, token)`, if it was served. */
  function Published(tokens: map<(string, string), Fields>, userId: string, token: string, served: bool)
    : map<(string, string), Fields>
  {
    if served then tokens[(userId, RECURRING_EXPENSES_TOKEN) := TokenFields(token)] else tokens
  }

  /** `getRemoteToken(userId)`: the token, or undefined without a token document. */
  method GetRemoteToken(db: Firestore, userId: string) returns (r: Result<Option<string>>)
    modifies db`budget
    ensures db.budget == Spend(old(db.budget), 1)
    ensures r.Err? <==> !Serves(old(db.budget), 1)
    ensures r.Err? ==> r.error == NetworkError
    ensures r.Ok? ==> r.value == RemoteToken(db, userId)
    ensures r.Ok? ==> (r.value.Some? <==> (userId, RECURRING_EXPENSES_TOKEN) in db.tokens && "token" in db.tokens[(userId, RECURRING_EXPENSES_TOKEN)])
  {
    var ok := db.Request();
    if !ok {
      return Err(NetworkError);
    }
    return Ok(RemoteToken(db, userId));
  }

  /** `setRemoteToken(userId, token)`: the token document becomes `{token}`. */
  method SetRemoteToken(db: Firestore, userId: string, token: string) returns (r: Result<()>)
    modifies db`budget, db`tokens
    ensures db.budget == Spend(old(db.budget), 1)
    ensures r == if Serves(old(db.budget), 1) then Ok(()) else Err(NetworkError)
    ensures db.tokens == if r.Ok? then old(db.tokens)[(userId, RECURRING_EXPENSES_TOKEN) := TokenFields(token)] else old(db.tokens)
    ensures r.Ok? ==> RemoteToken(db, userId) == Some(token)
  {
    var ok := db.Request();
    if !ok {
      return Err(NetworkError);
    }
    db.tokens := db.tokens[(userId, RECURRING_EXPENSES_TOKEN) := TokenFields(token)];
    return Ok(());
  }

  /** The reload both `getRecurringExpenses` and `updateRecurringExpenseAndCache`
      end with: read the active definitions, write them into the snapshot
      under a new local token, then publish that token. (`getRecurringExpenses`
      reads the snapshot before its remote check; nothing in between changes it.) */
  method Reload(cache: CacheService, db: Firestore, userId: string, newToken: string)
    returns (r: Result<seq<RecurringExpense>>)
    requires cache.Valid()
    modifies cache, db`budget, db`tokens
    ensures cache.Valid()
    ensures db.budget == Spend(old(db.budget), 2)
    ensures var list := ActiveExpenses(db.RecurringDocs(userId));
      && (r.Ok? <==> Serves(old(db.budget), 2))
      && (r.Ok? ==> r.value == list && InSync(cache.store, RemoteToken(db, userId), list))
      && (r.Ok? ==> RemoteToken(db, userId) == Some(newToken))
      && (r.Err? ==> r.error == if Serves(old(db.budget), 1) then NetworkError else Failure(GET_ACTIVE_FAILED))
      && cache.store == Reloaded(old(cache.store), old(db.budget), list, newToken)
      && db.tokens == Published(old(db.tokens), userId, newToken, r.Ok?)
  {
    var fetched := GetActiveRecurringExpenses(db, userId);
    if fetched.Err? {
      return Err(fetched.error);
    }
    var store := cache.GetStore();
    cache.SetStore(WithRecurring(store, fetched.value, newToken));
    var published := SetRemoteToken(db, userId, newToken);
    if published.Err? {
      return Err(published.error);
    }
    return Ok(fetched.value);
  }

  /** The body of `getRecurringExpenses(userId, forceRefresh)`. `fromCache`
      tells whether it returned the cached list: only with a truthy local
      token that the remote token matches, unless refreshing is forced.
      Every other path reloads. */
  method Lookup(cache: CacheService, db: Firestore, userId: string, forceRefresh: bool, newToken: string)
    returns (r: Result<seq<RecurringExpense>>, fromCache: bool)
    requires cache.Valid()
    modifies cache, db`budget, db`tokens
    ensures cache.Valid()
    ensures fromCache <==> Hit(old(cache.store), forceRefresh, old(db.budget), old(RemoteToken(db, userId)))
    ensures fromCache ==> r == Ok(old(cache.store).value.recurringExpenses.value)
    ensures fromCache ==> cache.store == old(cache.store) && db.tokens == old(db.tokens) && db.budget == Spend(old(db.budget), 1)
    ensures ChecksRemote(old(cache.store), forceRefresh) && !Serves(old(db.budget), 1) ==>
      r == Err(NetworkError) && cache.store == old(cache.store) && db.tokens == old(db.tokens) && db.budget == Spend(old(db.budget), 1)
    ensures var b := ReloadBudget(old(cache.store), forceRefresh, old(db.budget));
      var list := ActiveExpenses(db.RecurringDocs(userId));
      !fromCache && (ChecksRemote(old(cache.store), forceRefresh) ==> Serves(old(db.budget), 1)) ==>
        && db.budget == Spend(b, 2)
        && (r.Ok? <==> Serves(b, 2))
        && (r.Ok? ==> r.value == list && RemoteToken(db, userId) == Some(newToken))
        && (r.Err? ==> r.error == if Serves(b, 1) then NetworkError else Failure(GET_ACTIVE_FAILED))
        && cache.store == Reloaded(old(cache.store), b, list, newToken)
        && db.tokens == Published(old(db.tokens), userId, newToken, r.Ok?)
    ensures r.Ok? ==> InSync(cache.store, RemoteToken(db, userId), r.value)
  {
    fromCache := false;
    var store := cache.GetStore();
    var cachedData := if store.Some? then store.value.recurringExpenses else None;
    var cachedToken := CachedToken(store);
    if !forceRefresh && Truthy(cachedToken) {
      var remote := GetRemoteToken(db, userId);
      if remote.Err? {
        return Err(remote.error), false;
      }
      if Truthy(remote.value) && remote.value == cachedToken && cachedData.Some? {
        return Ok(cachedData.value), true;
      }
    }
    r := Reload(cache, db, userId, newToken);
  }

  /** `getRecurringExpenses` as written: the reload path has no `return`,
      so the caller receives `undefined` (None) although the list was fetched. */
  method GetRecurringExpensesAsWritten(cache: CacheService, db: Firestore, userId: string, forceRefresh: bool, newToken: string)
    returns (r: Result<Option<seq<RecurringExpense>>>)
    requires cache.Valid()
    modifies cache, db`budget, db`tokens
    ensures cache.Valid()
    ensures r.Ok? && r.value.Some? <==> Hit(old(cache.store), forceRefresh, old(db.budget), old(RemoteToken(db, userId)))
    ensures r.Ok? && r.value.Some? ==>
      r.value.value == old(cache.store).value.recurringExpenses.value && InSync(cache.store, RemoteToken(db, userId), r.value.value)
    ensures r.Ok? && r.value.None? ==>
      InSync(cache.store, RemoteToken(db, userId), ActiveExpenses(db.RecurringDocs(userId))) && RemoteToken(db, userId) == Some(newToken)
    ensures var b := ReloadBudget(old(cache.store), forceRefresh, old(db.budget));
      !Hit(old(cache.store), forceRefresh, old(db.budget), old(RemoteToken(db, userId))) && (ChecksRemote(old(cache.store), forceRefresh) ==> Serves(old(db.budget), 1)) ==>
        && db.budget == Spend(b, 2)
        && (r.Ok? <==> Serves(b, 2))
        && cache.store == Reloaded(old(cache.store), b, ActiveExpenses(db.RecurringDocs(userId)), newToken)
        && db.tokens == Published(old(db.tokens), userId, newToken, r.Ok?)
  {
    var list, fromCache := Lookup(cache, db, userId, forceRefresh, newToken);
    if list.Err? {
      return Err(list.error);
    }
    r := Ok(if fromCache then Some(list.value) else None);
  }

  /** `getRecurringExpenses` with the fetched list returned, as its type
      promises: the cached list on a hit, the fresh one otherwise. */
  method GetRecurringExpenses(cache: CacheService, db: Firestore, userId: string, forceRefresh: bool, newToken: string)
    returns (r: Result<seq<RecurringExpense>>)
    requires cache.Valid()
    modifies cache, db`budget, db`tokens
    ensures cache.Valid()
    ensures r.Ok? ==> InSync(cache.store, RemoteToken(db, userId), r.value)
    ensures Hit(old(cache.store), forceRefresh, old(db.budget), old(RemoteToken(db, userId))) ==>
      r == Ok(old(cache.store).value.recurringExpenses.value)
      && cache.store == old(cache.store) && db.tokens == old(db.tokens) && db.budget == Spend(old(db.budget), 1)
    ensures ChecksRemote(old(cache.store), forceRefresh) && !Serves(old(db.budget), 1) ==>
      r == Err(NetworkError) && cache.store == old(cache.store) && db.tokens == old(db.tokens) && db.budget == Spend(old(db.budget), 1)
    ensures var b := ReloadBudget(old(cache.store), forceRefresh, old(db.budget));
      var list := ActiveExpenses(db.RecurringDocs(userId));
      !Hit(old(cache.store), forceRefresh, old(db.budget), old(RemoteToken(db, userId))) && (ChecksRemote(old(cache.store), forceRefresh) ==> Serves(old(db.budget), 1)) ==>
        && db.budget == Spend(b, 2)
        && (r.Ok? <==> Serves(b, 2))
        && (r.Ok? ==> r.value == list && RemoteToken(db, userId) == Some(newToken))
        && (r.Err? ==> r.error == if Serves(b, 1) then NetworkError else Failure(GET_ACTIVE_FAILED))
        && cache.store == Reloaded(old(cache.store), b, list, newToken)
        && db.tokens == Published(old(db.tokens), userId, newToken, r.Ok?)
  {
    var fromCache;
    r, fromCache := Lookup(cache, db, userId, forceRefresh, newToken);
  }

  /** `updateRecurringExpenseAndCache(userId, expense)`: the whole definition
      is written over the stored one, then the cache is reloaded. */
  method UpdateRecurringExpenseAndCache(cache: CacheService, db: Firestore, userId: string,
                                        expense: RecurringExpense, newToken: string)
    returns (r: Result<()>)
    requires cache.Valid()
    modifies cache, db`budget, db`recurring, db`tokens
    ensures cache.Valid()
    ensures var stored := Find(old(db.RecurringDocs(userId)), expense.id);
      var updated := Serves(old(db.budget), 1) && stored.Some?;
      && db.budget == Spend(old(db.budget), if updated then 3 else 1)
      && (r.Ok? <==> updated && Serves(old(db.budget), 3))
      && db.recurring == (if updated
           then old(db.recurring)[userId := Put(old(db.RecurringDocs(userId)), expense.id, Apply(FullPatch(expense), stored.value))]
           else old(db.recurring))
      && (r.Err? ==> r.error == if !updated then Failure(UPDATE_FAILED)
                                else if Serves(old(db.budget), 2) then NetworkError else Failure(GET_ACTIVE_FAILED))
      && cache.store == (if updated then Reloaded(old(cache.store), Spend(old(db.budget), 1), ActiveExpenses(db.RecurringDocs(userId)), newToken)
                         else old(cache.store))
      && db.tokens == Published(old(db.tokens), userId, newToken, r.Ok?)
    ensures r.Ok? ==>
      RemoteToken(db, userId) == Some(newToken) && InSync(cache.store, RemoteToken(db, userId), ActiveExpenses(db.RecurringDocs(userId)))
    ensures forall u :: u != userId ==> db.RecurringDocs(u) == old(db.RecurringDocs(u))
  {
    SpendSpend(db.budget, 1, 2);
    SpendSpend(db.budget, 1, 1);
    var updated := UpdateRecurringExpense(db, userId, expense.id, FullPatch(expense));
    if updated.Err? {
      return Err(updated.error);
    }
    assert forall u :: u != userId ==> db.RecurringDocs(u) == old(db.RecurringDocs(u));
    var reloaded := Reload(cache, db, userId, newToken);
    if reloaded.Err? {
      return Err(reloaded.error);
    }
    return Ok(());
  }

  /** processFn's effect on a definition leaves `advance(e)` stored under
      `e.id`; an advanced definition that stays active is next due strictly
      later, which is what lets the catch-up loop end. */
  ghost predicate Advances(advance: RecurringExpense -> RecurringExpense) {
    forall e :: advance(e).isActive ==> EpochMs(e.nextOccurrence) < EpochMs(advance(e).nextOccurrence)
  }

  /** The definition processFn leaves for `e`, as the active query returns it. */
  function Advanced(e: RecurringExpense, advance: RecurringExpense -> RecurringExpense): RecurringExpense {
    advance(e).(id := e.id)
  }

  predicate Due(e: RecurringExpense, now: Date) {
    e.isActive && NotAfter(e.nextOccurrence, now)
  }

  function Overdue(e: RecurringExpense, now: Date): nat {
    if NotAfter(e.nextOccurrence, now) then EpochMs(now) - EpochMs(e.nextOccurrence) + 1 else 0
  }

  /** The catch-up loop of `processExpiredRecurringExpense` with every call
      succeeding: the definition it ends with and how many occurrences it
      counted. A definition processFn deactivates drops out of the active
      query, so the loop stops on the definition before it, uncounted. */
  function CatchUp(e: RecurringExpense, now: Date, advance: RecurringExpense -> RecurringExpense): (RecurringExpense, nat)
    requires Advances(advance)
    decreases Overdue(e, now)
  {
    if Due(e, now) && Advanced(e, advance).isActive then
      var next := CatchUp(Advanced(e, advance), now, advance);
      (next.0, next.1 + 1)
    else (e, 0)
  }

  /** The loop ends on a definition under the same id that is either not due
      or due but deactivated by its next processing; it stops at once (count
      0, the definition as given) on one that is not due. */
  lemma {:induction false} CatchUpEnds(e: RecurringExpense, now: Date, advance: RecurringExpense -> RecurringExpense)
    requires Advances(advance)
    ensures var f := CatchUp(e, now, advance).0;
      f.id == e.id && (!Due(f, now) || !Advanced(f, advance).isActive)
    ensures !Due(e, now) ==> CatchUp(e, now, advance) == (e, 0)
    ensures CatchUp(e, now, advance).1 > 0 ==> CatchUp(e, now, advance).0.isActive
    decreases Overdue(e, now)
  {
    if Due(e, now) && Advanced(e, advance).isActive {
      CatchUpEnds(Advanced(e, advance), now, advance);
    }
  }

  /** When processFn deactivates a due definition, the loop stops on the
      stale copy and the final update writes it back: the definition is
      stored active again with the occurrence already processed still due. */
  lemma DeactivationIsUndone(e: RecurringExpense, now: Date, advance: RecurringExpense -> RecurringExpense)
    requires Advances(advance)
    requires Due(e, now) && !advance(e).isActive
    ensures CatchUp(e, now, advance) == (e, 0) && Due(CatchUp(e, now, advance).0, now)
  {
  }

  /** How many rounds the catch-up loop makes with every call succeeding:
      one per counted occurrence, and one more when it ends on a definition
      that is still due (processFn deactivated its next occurrence). */
  function Rounds(e: RecurringExpense, now: Date, advance: RecurringExpense -> RecurringExpense): nat
    requires Advances(advance)
  {
    var f := CatchUp(e, now, advance);
    f.1 + if Due(f.0, now) then 1 else 0
  }

  /** The definition processFn writes last in such a run: none when `e` is
      not due; the deactivated copy when the loop ends on a definition still
      due; otherwise the definition the loop ends on. */
  function LastWrite(e: RecurringExpense, now: Date, advance: RecurringExpense -> RecurringExpense): Option<RecurringExpense>
    requires Advances(advance)
  {
    if !Due(e, now) then None
    else
      var f := CatchUp(e, now, advance).0;
      Some(if Due(f, now) then Advanced(f, advance) else f)
  }

  /** The catch-up loop's invariant: `count` rounds have led from `e` to `current`. */
  predicate Reached(e: RecurringExpense, current: RecurringExpense, count: nat, now: Date, advance: RecurringExpense -> RecurringExpense)
    requires Advances(advance)
  {
    && CatchUp(e, now, advance) == (CatchUp(current, now, advance).0, CatchUp(current, now, advance).1 + count)
    && (count > 0 ==> Due(e, now))
    && (count == 0 ==> current == e)
  }

  /** A round on a due definition that stays active keeps the invariant;
      a due definition always leaves at least one round to make. */
  lemma ReachedStep(e: RecurringExpense, current: RecurringExpense, count: nat, now: Date, advance: RecurringExpense -> RecurringExpense)
    requires Advances(advance) && Reached(e, current, count, now, advance) && Due(current, now)
    ensures count < Rounds(e, now, advance)
    ensures Advanced(current, advance).isActive ==> Reached(e, Advanced(current, advance), count + 1, now, advance)
  {
  }

  /** Where the loop ends: on a definition that is not due, or on a due one
      whose processed copy dropped out of the active query. Either way the
      run matches `CatchUp`, `Rounds` and `LastWrite`. */
  lemma ReachedEnd(e: RecurringExpense, current: RecurringExpense, count: nat, now: Date, advance: RecurringExpense -> RecurringExpense,
                   written: Option<RecurringExpense>)
    requires Advances(advance) && Reached(e, current, count, now, advance)
    requires !Due(current, now) ==> written == if count > 0 then Some(current) else None
    requires Due(current, now) ==> !Advanced(current, advance).isActive && written == Some(Advanced(current, advance))
    ensures CatchUp(e, now, advance) == (current, count)
    ensures Rounds(e, now, advance) == count + if Due(current, now) then 1 else 0
    ensures written == LastWrite(e, now, advance)
  {
  }

  /** Rounds and last write follow the loop round by round: nothing happens
      to a definition that is not due; a due one costs one round and is
      written, then the run goes on from its processed copy while that stays
      active, a later write replacing this one. */
  lemma RunStep(e: RecurringExpense, now: Date, advance: RecurringExpense -> RecurringExpense)
    requires Advances(advance)
    ensures !Due(e, now) ==> Rounds(e, now, advance) == 0 && LastWrite(e, now, advance) == None
    ensures Due(e, now) && !Advanced(e, advance).isActive ==>
      Rounds(e, now, advance) == 1 && LastWrite(e, now, advance) == Some(Advanced(e, advance))
    ensures var a := Advanced(e, advance);
      Due(e, now) && a.isActive ==>
        && Rounds(e, now, advance) == 1 + Rounds(a, now, advance)
        && LastWrite(e, now, advance) == if LastWrite(a, now, advance).Some? then LastWrite(a, now, advance) else Some(a)
  {
    var a := Advanced(e, advance);
    if Due(e, now) && a.isActive && !Due(a, now) {
      CatchUpEnds(a, now, advance);
    }
  }

  /** A user's definitions in the map the database keeps them in. */
  function DocsOf(m: map<string, seq<Doc<RecurringExpense>>>, userId: string): seq<Doc<RecurringExpense>> {
    if userId in m then m[userId] else []
  }

  /** The definitions after processFn wrote `w` (if anything) under `id`. */
  function WrittenBack(m: map<string, seq<Doc<RecurringExpense>>>, userId: string, id: string, w: Option<RecurringExpense>)
    : map<string, seq<Doc<RecurringExpense>>>
  {
    if w.None? then m
    else m[userId := Put(DocsOf(m, userId), id, w.value)]
  }

  /** Writing back under `id` touches no other user and no other definition,
      and keeps ids unique. */
  lemma WrittenBackFrame(m: map<string, seq<Doc<RecurringExpense>>>, userId: string, id: string, w: Option<RecurringExpense>)
    ensures forall u :: u != userId ==> DocsOf(WrittenBack(m, userId, id, w), u) == DocsOf(m, u)
    ensures forall k :: k != id ==> Find(DocsOf(WrittenBack(m, userId, id, w), userId), k) == Find(DocsOf(m, userId), k)
    ensures UniqueIds(DocsOf(m, userId)) ==> UniqueIds(DocsOf(WrittenBack(m, userId, id, w), userId))
  {
    if w.Some? && UniqueIds(DocsOf(m, userId)) {
      PutKeepsUniqueIds(DocsOf(m, userId), id, w.value);
    }
  }

  lemma WriteAgain(m: map<string, seq<Doc<RecurringExpense>>>, userId: string, id: string, w: Option<RecurringExpense>, x: RecurringExpense)
    ensures WrittenBack(WrittenBack(m, userId, id, w), userId, id, Some(x)) == WrittenBack(m, userId, id, Some(x))
  {
    if w.Some? {
      PutPut(DocsOf(m, userId), id, w.value, x);
    }
  }

  /** What `processExpiredRecurringExpense` leaves once its loop ran
      through `n` calls and wrote `w` last: the final update's effect (found
      definition, budget, outcome, store) composed with the loop's writes.
      The update finds the last definition processFn wrote, else the one
      stored before, and replaces any earlier write in place. */
  lemma ExpiredEffect(m0: map<string, seq<Doc<RecurringExpense>>>, b0: Option<nat>, n: nat, userId: string, id: string,
                      w: Option<RecurringExpense>, current: RecurringExpense,
                      m2: map<string, seq<Doc<RecurringExpense>>>, b2: Option<nat>, ok: bool)
    requires Serves(b0, n)
    requires var m1 := WrittenBack(m0, userId, id, w);
      var stored := Find(DocsOf(m1, userId), id);
      var updated := Serves(Spend(b0, n), 1) && stored.Some?;
      && b2 == Spend(Spend(b0, n), if updated then 3 else 1)
      && (ok <==> updated && Serves(Spend(b0, n), 3))
      && m2 == if updated then m1[userId := Put(DocsOf(m1, userId), id, Apply(FullPatch(current), stored.value))] else m1
    ensures var stored := if w.Some? then w else Find(DocsOf(m0, userId), id);
      && b2 == Spend(b0, n + if stored.Some? then 3 else 1)
      && (ok <==> Serves(b0, n + 3) && stored.Some?)
      && (ok ==> m2 == m0[userId := Put(DocsOf(m0, userId), id, Apply(FullPatch(current), stored.value))])
  {
    var m1 := WrittenBack(m0, userId, id, w);
    var stored := if w.Some? then w else Find(DocsOf(m0, userId), id);
    assert Find(DocsOf(m1, userId), id) == stored;
    ExpiredBudget(b0, n, stored.Some?, b2, ok);
    if ok && w.Some? {
      PutPut(DocsOf(m0, userId), id, w.value, Apply(FullPatch(current), w.value));
    }
  }

  /** The budget and outcome of the final update after `n` calls, when it
      finds a definition exactly when `found`. */
  lemma ExpiredBudget(b0: Option<nat>, n: nat, found: bool, b2: Option<nat>, ok: bool)
    requires Serves(b0, n)
    requires b2 == Spend(Spend(b0, n), if Serves(Spend(b0, n), 1) && found then 3 else 1)
    requires ok <==> Serves(Spend(b0, n), 1) && found && Serves(Spend(b0, n), 3)
    ensures b2 == Spend(b0, n + if found then 3 else 1)
    ensures ok <==> Serves(b0, n + 3) && found
  {
    SpendSpend(b0, n, 1);
    SpendSpend(b0, n, 3);
  }

  /** A round that fails leaves the budget a run of `rounds` rounds would:
      exhausted. */
  lemma RoundBudget(b: Option<nat>, done: nat, rounds: nat, after: Option<nat>)
    requires done < rounds && after == Spend(Spend(b, 2 * done), 2)
    ensures Serves(Spend(b, 2 * done), 2) ==> after == Spend(b, 2 * (done + 1)) && Serves(b, 2 * (done + 1))
    ensures !Serves(Spend(b, 2 * done), 2) ==> after == Spend(b, 2 * rounds) && !Serves(b, 2 * rounds)
    ensures Serves(Spend(b, 2 * done), 1) <==> Serves(b, 2 * done + 1)
  {
    SpendSpend(b, 2 * done, 2);
    SpendSpend(b, 2 * done, 1);
  }

  /** One round of the catch-up loop: `processFn(currentExpense)`, then the
      active query, then `find` by id. */
  method ProcessOnce(db: Firestore, userId: string, current: RecurringExpense,
                     advance: RecurringExpense -> RecurringExpense)
    returns (r: Result<Option<RecurringExpense>>)
    requires UniqueIds(db.RecurringDocs(userId))
    modifies db`budget, db`recurring
    ensures UniqueIds(db.RecurringDocs(userId))
    ensures db.budget == Spend(old(db.budget), 2)
    ensures r.Ok? <==> Serves(old(db.budget), 2)
    ensures r.Ok? ==> r.value == if Advanced(current, advance).isActive then Some(Advanced(current, advance)) else None
    ensures db.recurring == WrittenBack(old(db.recurring), userId, current.id,
                                        if Serves(old(db.budget), 1) then Some(Advanced(current, advance)) else None)
  {
    var processed := db.Request();
    if !processed {
      return Err(NetworkError);
    }
    PutKeepsUniqueIds(db.RecurringDocs(userId), current.id, Advanced(current, advance));
    db.recurring := db.recurring[userId := Put(db.RecurringDocs(userId), current.id, Advanced(current, advance))];
    var all := GetActiveRecurringExpenses(db, userId);
    if all.Err? {
      return Err(all.error);
    }
    FindInActive(db.RecurringDocs(userId), current.id);
    return Ok(FindById(all.value, current.id));
  }

  /** The `while` loop of `processExpiredRecurringExpense`: while the
      definition is active and due at `now`, process it and re-read it
      through the active query. It ends where `CatchUp` does. */
  method CatchUpLoop(db: Firestore, userId: string, expense: RecurringExpense,
                     advance: RecurringExpense -> RecurringExpense, now: Date)
    returns (r: Result<(RecurringExpense, nat)>, ghost written: Option<RecurringExpense>)
    requires UniqueIds(db.RecurringDocs(userId)) && Advances(advance)
    modifies db`budget, db`recurring
    ensures db.budget == Spend(old(db.budget), 2 * Rounds(expense, now, advance))
    ensures r.Ok? <==> Serves(old(db.budget), 2 * Rounds(expense, now, advance))
    ensures r.Ok? ==> r.value == CatchUp(expense, now, advance)
    ensures db.recurring == WrittenBack(old(db.recurring), userId, expense.id, written)
    ensures r.Ok? ==> written == LastWrite(expense, now, advance)
  {
    var count := 0;
    var current := expense;
    written := None;
    while Due(current, now)
      invariant UniqueIds(db.RecurringDocs(userId)) && current.id == expense.id
      invariant Reached(expense, current, count, now, advance)
      invariant db.budget == Spend(old(db.budget), 2 * count) && Serves(old(db.budget), 2 * count)
      invariant written == if count > 0 then Some(current) else None
      invariant db.recurring == WrittenBack(old(db.recurring), userId, expense.id, written)
      decreases Overdue(current, now)
    {
      ReachedStep(expense, current, count, now, advance);
      var step := ProcessOnce(db, userId, current, advance);
      RoundBudget(old(db.budget), count, Rounds(expense, now, advance), db.budget);
      if Serves(old(db.budget), 2 * count + 1) {
        WriteAgain(old(db.recurring), userId, expense.id, written, Advanced(current, advance));
        written := Some(Advanced(current, advance));
      }
      if step.Err? {
        return Err(step.error), written;
      }
      if step.value.None? {
        ReachedEnd(expense, current, count, now, advance, written);
        return Ok((current, count)), written;
      }
      current := step.value.value;
      count := count + 1;
    }
    ReachedEnd(expense, current, count, now, advance, written);
    return Ok((current, count)), written;
  }

  /** `processExpiredRecurringExpense(userId, expense, processFn)`: the
      catch-up loop, then the last definition it read is written back
      through `updateRecurringExpenseAndCache`. */
  method ProcessExpiredRecurringExpense(cache: CacheService, db: Firestore, userId: string, expense: RecurringExpense,
                                        advance: RecurringExpense -> RecurringExpense, now: Date, newToken: string)
    returns (r: Result<nat>)
    requires cache.Valid() && UniqueIds(db.RecurringDocs(userId)) && Advances(advance)
    modifies cache, db`budget, db`recurring, db`tokens
    ensures cache.Valid() && UniqueIds(db.RecurringDocs(userId))
    ensures var w := LastWrite(expense, now, advance);
      var stored := if w.Some? then w else Find(old(db.RecurringDocs(userId)), expense.id);
      var f := CatchUp(expense, now, advance).0;
      && (r.Ok? <==> Serves(old(db.budget), 2 * Rounds(expense, now, advance) + 3) && stored.Some?)
      && (r.Ok? ==> r.value == CatchUp(expense, now, advance).1)
      && (r.Ok? ==> db.recurring == old(db.recurring)[userId :=
            Put(old(db.RecurringDocs(userId)), expense.id, Apply(FullPatch(f), stored.value))])
    ensures db.tokens == Published(old(db.tokens), userId, newToken, r.Ok?)
    ensures r.Ok? ==>
      RemoteToken(db, userId) == Some(newToken) && cache.store == Some(WithRecurring(old(cache.store), ActiveExpenses(db.RecurringDocs(userId)), newToken))
    ensures forall u, k :: u != userId || k != expense.id ==> Find(db.RecurringDocs(u), k) == Find(old(db.RecurringDocs(u)), k)
  {
    ghost var rounds := 2 * Rounds(expense, now, advance);
    var looped, written := CatchUpLoop(db, userId, expense, advance, now);
    WrittenBackFrame(old(db.recurring), userId, expense.id, written);
    assert db.RecurringDocs(userId) == DocsOf(db.recurring, userId);
    if looped.Err? {
      SpendSpend(old(db.budget), rounds, 1);
      SpendSpend(old(db.budget), rounds, 3);
      return Err(looped.error);
    }
    var current := looped.value.0;
    CatchUpEnds(expense, now, advance);
    ghost var before := db.RecurringDocs(userId);
    ghost var stored := Find(before, expense.id);
    if stored.Some? {
      PutKeepsUniqueIds(before, expense.id, Apply(FullPatch(current), stored.value));
    }
    var updated := UpdateRecurringExpenseAndCache(cache, db, userId, current, newToken);
    r := if updated.Err? then Err(updated.error) else Ok(looped.value.1);
    ExpiredEffect(old(db.recurring), old(db.budget), rounds, userId, expense.id, written, current, db.recurring, db.budget, r.Ok?);
  }

  /** The snapshot `clearRecurringExpensesCache` writes: an empty list under
      the empty (falsy) local token. */
  function Cleared(s: Option<CacheStore>): (r: CacheStore)
    ensures r.recurringExpenses == Some([]) && !Truthy(r.tokens.recurringTransactionToken)
    ensures s.Some? ==> r.categories == s.value.categories && r.transactions == s.value.transactions
  {
    WithRecurring(s, [], "")
  }

  /** `clearRecurringExpensesCache()`: afterwards the next lookup cannot be
      served from the cache, forced or not. */
  method ClearRecurringExpensesCache(cache: CacheService)
    requires cache.Valid()
    modifies cache
    ensures cache.store == Some(Cleared(old(cache.store)))
    ensures cache.Valid()
    ensures forall force :: !ChecksRemote(cache.store, force)
  {
    var store := cache.GetStore();
    cache.SetStore(Cleared(store));
  }

  /** `deleteRecurringExpense(userId, expenseId)`: delete the document,
      publish `deleteToken`, then force a refresh of the cache (which mints
      `refreshToken`). Any failure is rethrown with one fixed message. */
  method DeleteRecurringExpense(cache: CacheService, db: Firestore, userId: string, expenseId: string,
                                deleteToken: string, refreshToken: string)
    returns (r: Result<()>)
    requires cache.Valid()
    modifies cache, db`budget, db`recurring, db`tokens
    ensures cache.Valid()
    ensures db.budget == Spend(old(db.budget), 4)
    ensures r.Ok? <==> Serves(old(db.budget), 4)
    ensures r.Err? ==> r.error == Failure(DELETE_FAILED)
    ensures db.recurring == if Serves(old(db.budget), 1)
      then old(db.recurring)[userId := Without(old(db.RecurringDocs(userId)), expenseId)]
      else old(db.recurring)
    ensures r.Ok? ==> expenseId !in Ids(db.RecurringDocs(userId)) && RemoteToken(db, userId) == Some(refreshToken)
    ensures r.Ok? ==> InSync(cache.store, RemoteToken(db, userId), ActiveExpenses(db.RecurringDocs(userId)))
  {
    var deleted := db.Request();
    if !deleted {
      return Err(Failure(DELETE_FAILED));
    }
    db.recurring := db.recurring[userId := Without(db.RecurringDocs(userId), expenseId)];
    var published := SetRemoteToken(db, userId, deleteToken);
    if published.Err? {
      return Err(Failure(DELETE_FAILED));
    }
    var refreshed := GetRecurringExpenses(cache, db, userId, true, refreshToken);
    if refreshed.Err? {
      return Err(Failure(DELETE_FAILED));
    }
    return Ok(());
  }
}
