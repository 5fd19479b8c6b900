/** The sync decision engine (`SyncService`, src/services/sync.ts): per
    partition (`categories`, `transactions_{year}`) it compares the token in
    the local snapshot with the token document in Firestore, returns the
    cached data when they match and otherwise refetches and writes the data
    and the remote token through to the cache.

    The source passes its arguments to `updateTransactions` in the wrong
    order; this model makes the year-keyed call the source intends (the
    call as written is modelled in module SyncFindings). Minted tokens are
    parameters. */
module Sync {
  import opened Wrappers
  import opened Entities
  import opened Firestore
  import opened Cache
  import UserTransactions
  import UserCategories

  /** The categories partition is up to date: the remote token is present
      and equals the local one. */
  predicate CategoriesHit(s: Option<CacheStore>, remote: Option<string>) {
    Truthy(remote) && s.Some? && remote == s.value.tokens.categoriesToken
  }

  /** The year partition is up to date: the local token is present and the
      remote one equals it. */
  predicate YearHit(s: Option<CacheStore>, year: string, remote: Option<string>) {
    Truthy(LocalYearToken(s, year)) && remote == LocalYearToken(s, year)
  }

  class SyncService {
    const userId: string
    const cache: CacheService
    const db: Firestore

    constructor (userId: string, cache: CacheService, db: Firestore)
      ensures this.userId == userId && this.cache == cache && this.db == db
    {
      this.userId := userId;
      this.cache := cache;
      this.db := db;
    }

    /** The remote token of a partition as the sync reads it: `tokenDoc.data()?.token`. */
    function RemoteToken(name: string): Option<string>
      reads db`tokens
    {
      db.TokenField(userId, name, "token")
    }

    method ReadRemoteToken(name: string) returns (r: Result<Option<string>>)
      modifies db`budget
      ensures db.budget == Spend(old(db.budget), 1)
      ensures r == if Serves(old(db.budget), 1) then Ok(RemoteToken(name)) else Err(NetworkError)
    {
      var ok := db.Request();
      if !ok {
        return Err(NetworkError);
      }
      return Ok(RemoteToken(name));
    }

    /** `syncCategories()`: the cached categories on a hit; otherwise the
        fetched list, cached under the remote token (possibly `undefined`). */
    method SyncCategories(withType: seq<Category> -> seq<CategoryWithType>) returns (r: Result<seq<CategoryWithType>>)
      requires cache.Valid()
      modifies cache, db`budget
      ensures cache.Valid()
      ensures var remote := RemoteToken(CATEGORIES_TOKEN);
        var hit := CategoriesHit(old(cache.store), remote);
        && (!Serves(old(db.budget), 1) ==>
              r == Err(NetworkError) && cache.store == old(cache.store) && db.budget == Spend(old(db.budget), 1))
        && (Serves(old(db.budget), 1) && hit ==>
              r == Ok(old(cache.store).value.categories.value) && cache.store == old(cache.store)
              && db.budget == Spend(old(db.budget), 1))
        && (Serves(old(db.budget), 1) && !hit ==>
              db.budget == Spend(old(db.budget), 2)
              && (Serves(old(db.budget), 2) ==>
                    r == Ok(withType(Datas(db.CategoryDocs(userId))))
                    && cache.store == Some(WithCategories(old(cache.store), r.value, remote)))
              && (!Serves(old(db.budget), 2) ==> r == Err(NetworkError) && cache.store == old(cache.store)))
    {
      var remote := ReadRemoteToken(CATEGORIES_TOKEN);
      if remote.Err? {
        return Err(remote.error);
      }
      var store := cache.GetStore();
      if !CategoriesHit(store, remote.value) {
        var fetched := UserCategories.GetCategoriesWithType(db, userId, withType);
        if fetched.Err? {
          return Err(fetched.error);
        }
        cache.UpdateCategories(fetched.value, remote.value);
        return Ok(fetched.value);
      }
      return Ok(store.value.categories.value);
    }

    /** `syncTransactionsYear(year)`: without a local token it goes straight
        to Firebase; with one it reads the remote token and returns the
        cached year only when the two are equal. */
    method SyncTransactionsYear(year: string) returns (r: Result<seq<Transaction>>)
      requires cache.Valid()
      modifies cache, db`budget
      ensures cache.Valid()
      ensures var local := LocalYearToken(old(cache.store), year);
        var fromFirebase := Datas(db.YearDocs(userId, year));
        var synced := WithTransactions(old(cache.store), year, fromFirebase, RemoteToken(TransactionsTokenName(year)));
        && (!Truthy(local) ==>
              db.budget == Spend(old(db.budget), 2)
              && (r.Ok? <==> Serves(old(db.budget), 2))
              && (r.Ok? ==> r.value == fromFirebase && cache.store == Some(synced))
              && (r.Err? ==> cache.store == old(cache.store)))
        && (Truthy(local) && YearHit(old(cache.store), year, RemoteToken(TransactionsTokenName(year))) ==>
              db.budget == Spend(old(db.budget), 1)
              && (r.Ok? <==> Serves(old(db.budget), 1))
              && (r.Ok? ==> r.value == CachedYear(old(cache.store).value, year))
              && cache.store == old(cache.store))
        && (Truthy(local) && !YearHit(old(cache.store), year, RemoteToken(TransactionsTokenName(year))) ==>
              db.budget == Spend(old(db.budget), 3)
              && (r.Ok? <==> Serves(old(db.budget), 3))
              && (r.Ok? ==> r.value == fromFirebase && cache.store == Some(synced))
              && (r.Err? ==> cache.store == old(cache.store)))
    {
      var store := cache.GetStore();
      var local := LocalYearToken(store, year);
      if !Truthy(local) {
        r := SyncFromFirebase(year);
        return;
      }
      var remote := ReadRemoteToken(TransactionsTokenName(year));
      if remote.Err? {
        return Err(remote.error);
      }
      if remote.value == local {
        return Ok(CachedYear(store.value, year));
      }
      r := SyncFromFirebase(year);
    }

    /** `syncFromFirebase(year)`: reads the full year list, then the year's
        remote token, and caches both. */
    method SyncFromFirebase(year: string) returns (r: Result<seq<Transaction>>)
      requires cache.Valid()
      modifies cache, db`budget
      ensures cache.Valid()
      ensures db.budget == Spend(old(db.budget), 2)
      ensures r.Ok? <==> Serves(old(db.budget), 2)
      ensures r.Ok? ==> r.value == Datas(db.YearDocs(userId, year))
      ensures r.Ok? ==> cache.store == Some(WithTransactions(old(cache.store), year, r.value, RemoteToken(TransactionsTokenName(year))))
      ensures r.Err? ==> cache.store == old(cache.store)
    {
      var list := UserTransactions.GetUserTransactionsByYear(db, userId, year);
      if list.Err? {
        return Err(list.error);
      }
      var remote := ReadRemoteToken(TransactionsTokenName(year));
      if remote.Err? {
        return Err(remote.error);
      }
      cache.UpdateTransactions(year, list.value, remote.value);
      return Ok(list.value);
    }

    /** The re-read after a write: the whole year list and its remote token. */
    method RefreshYear(year: string) returns (ok: bool)
      requires cache.Valid()
      modifies cache, db`budget
      ensures cache.Valid()
      ensures db.budget == Spend(old(db.budget), 2)
      ensures ok == Serves(old(db.budget), 2)
      ensures cache.store == if ok
        then Some(WithTransactions(old(cache.store), year, Datas(db.YearDocs(userId, year)), RemoteToken(TransactionsTokenName(year))))
        else old(cache.store)
    {
      var r := SyncFromFirebase(year);
      ok := r.Ok?;
    }

    /** `updateTransactionAndCache(t)`: writes `t` through the adapter (whose
        failure it ignores, as the adapter returns `null`), then re-reads the
        year and its token into the cache. */
    method UpdateTransactionAndCache(t: Transaction, newToken: string) returns (r: Result<()>)
      requires cache.Valid()
      modifies cache, db`budget, db`transactions, db`tokens
      ensures cache.Valid()
      ensures db.budget == Spend(old(db.budget), 4)
      ensures var key := (userId, YearKey(t.timestamp));
        db.transactions == if Serves(old(db.budget), 1)
          then old(db.transactions)[key := Put(old(db.YearDocs(key.0, key.1)), t.id, t)]
          else old(db.transactions)
      ensures db.tokens == if Serves(old(db.budget), 2)
        then old(db.tokens)[(userId, TransactionsTokenName(YearKey(t.timestamp))) := TokenFields(newToken)]
        else old(db.tokens)
      ensures r.Ok? <==> Serves(old(db.budget), 4)
      ensures r.Ok? ==>
        && cache.store == Some(WithTransactions(old(cache.store), YearKey(t.timestamp),
                                                Datas(db.YearDocs(userId, YearKey(t.timestamp))), Some(newToken)))
        && Find(db.YearDocs(userId, YearKey(t.timestamp)), t.id) == Some(t)
      ensures r.Err? ==> cache.store == old(cache.store)
    {
      var year := YearKey(t.timestamp);
      ghost var before := db.YearDocs(userId, year);
      var written := UserTransactions.CreateUserTransaction(db, userId, t, newToken);
      assert written.Some? ==> Find(db.YearDocs(userId, year), t.id) == Some(t) by {
        if written.Some? {
          assert db.YearDocs(userId, year) == Put(before, t.id, t);
        }
      }
      var ok := RefreshYear(year);
      r := if ok then Ok(()) else Err(NetworkError);
    }

    /** `deleteTransactionAndCache(t, year)`: deletes through the adapter
        (which rethrows), then re-reads the year and its token into the cache. */
    method DeleteTransactionAndCache(t: Transaction, year: string, newToken: string) returns (r: Result<()>)
      requires cache.Valid()
      modifies cache, db`budget, db`transactions, db`tokens
      ensures cache.Valid()
      ensures db.budget == Spend(old(db.budget), if Serves(old(db.budget), 2) then 4 else 2)
      ensures db.transactions == if Serves(old(db.budget), 1)
        then old(db.transactions)[(userId, year) := Without(old(db.YearDocs(userId, year)), t.id)]
        else old(db.transactions)
      ensures db.tokens == if Serves(old(db.budget), 2)
        then old(db.tokens)[(userId, TransactionsTokenName(year)) := TokenFields(newToken)]
        else old(db.tokens)
      ensures r.Ok? <==> Serves(old(db.budget), 4)
      ensures r.Ok? ==>
        && cache.store == Some(WithTransactions(old(cache.store), year, Datas(db.YearDocs(userId, year)), Some(newToken)))
        && Find(db.YearDocs(userId, year), t.id) == None
      ensures r.Err? ==> cache.store == old(cache.store)
    {
      var deleted := UserTransactions.DeleteTransaction(db, userId, t.id, year, newToken);
      if deleted.Err? {
        return Err(deleted.error);
      }
      var ok := RefreshYear(year);
      r := if ok then Ok(()) else Err(NetworkError);
    }

    /** The body shared by `createTransaction` and `updateTransaction`: the
        document write, the token mint, the re-read of the year and the cache
        write under the minted token. */
    method WriteAndCache(t: Transaction, merge: bool, newToken: string) returns (ok: bool)
      requires cache.Valid()
      modifies cache, db`budget, db`transactions, db`tokens
      ensures cache.Valid()
      ensures db.budget == Spend(old(db.budget), 3)
      ensures ok == Serves(old(db.budget), 3)
      ensures var key := (userId, YearKey(t.timestamp));
        db.transactions == if Serves(old(db.budget), 1)
          then old(db.transactions)[key := UserTransactions.AfterWrite(old(db.YearDocs(key.0, key.1)), t, merge)]
          else old(db.transactions)
      ensures db.tokens == if Serves(old(db.budget), 2)
        then old(db.tokens)[(userId, TransactionsTokenName(YearKey(t.timestamp))) := TokenFields(newToken)]
        else old(db.tokens)
      ensures cache.store == if ok
        then Some(WithTransactions(old(cache.store), YearKey(t.timestamp),
                                   Datas(db.YearDocs(userId, YearKey(t.timestamp))), Some(newToken)))
        else old(cache.store)
    {
      var year := YearKey(t.timestamp);
      ok := UserTransactions.WriteTransactionAndToken(db, userId, t, merge, newToken);
      if !ok {
        return;
      }
      var list := UserTransactions.GetUserTransactionsByYear(db, userId, year);
      if list.Err? {
        return false;
      }
      cache.UpdateTransactions(year, list.value, Some(newToken));
    }

    /** `createTransaction(t)`: `t` on success, `null` on any failure. */
    method CreateTransaction(t: Transaction, newToken: string) returns (r: Option<Transaction>)
      requires cache.Valid()
      modifies cache, db`budget, db`transactions, db`tokens
      ensures cache.Valid()
      ensures db.budget == Spend(old(db.budget), 3)
      ensures r == if Serves(old(db.budget), 3) then Some(t) else None
      ensures var key := (userId, YearKey(t.timestamp));
        db.transactions == if Serves(old(db.budget), 1)
          then old(db.transactions)[key := Put(old(db.YearDocs(key.0, key.1)), t.id, t)]
          else old(db.transactions)
      ensures db.tokens == if Serves(old(db.budget), 2)
        then old(db.tokens)[(userId, TransactionsTokenName(YearKey(t.timestamp))) := TokenFields(newToken)]
        else old(db.tokens)
      ensures cache.store == if r.Some?
        then Some(WithTransactions(old(cache.store), YearKey(t.timestamp),
                                   Datas(db.YearDocs(userId, YearKey(t.timestamp))), Some(newToken)))
        else old(cache.store)
    {
      var ok := WriteAndCache(t, false, newToken);
      r := if ok then Some(t) else None;
    }

    /** `updateTransaction(t)`: as `createTransaction`, with a merge write. */
    method UpdateTransaction(t: Transaction, newToken: string) returns (r: Option<Transaction>)
      requires cache.Valid()
      modifies cache, db`budget, db`transactions, db`tokens
      ensures cache.Valid()
      ensures db.budget == Spend(old(db.budget), 3)
      ensures r == if Serves(old(db.budget), 3) then Some(t) else None
      ensures var key := (userId, YearKey(t.timestamp));
        db.transactions == if Serves(old(db.budget), 1)
          then old(db.transactions)[key := UserTransactions.AfterWrite(old(db.YearDocs(key.0, key.1)), t, true)]
          else old(db.transactions)
      ensures db.tokens == if Serves(old(db.budget), 2)
        then old(db.tokens)[(userId, TransactionsTokenName(YearKey(t.timestamp))) := TokenFields(newToken)]
        else old(db.tokens)
      ensures cache.store == if r.Some?
        then Some(WithTransactions(old(cache.store), YearKey(t.timestamp),
                                   Datas(db.YearDocs(userId, YearKey(t.timestamp))), Some(newToken)))
        else old(cache.store)
    {
      var ok := WriteAndCache(t, true, newToken);
      r := if ok then Some(t) else None;
    }

    /** `deleteTransaction(id, year)`: touches only that year; a failure is
        rethrown instead of turned into `null`. */
    method DeleteTransaction(transactionId: string, year: string, newToken: string) returns (r: Result<()>)
      requires cache.Valid()
      modifies cache, db`budget, db`transactions, db`tokens
      ensures cache.Valid()
      ensures db.budget == Spend(old(db.budget), 3)
      ensures r == if Serves(old(db.budget), 3) then Ok(()) else Err(NetworkError)
      ensures db.transactions == if Serves(old(db.budget), 1)
        then old(db.transactions)[(userId, year) := Without(old(db.YearDocs(userId, year)), transactionId)]
        else old(db.transactions)
      ensures db.tokens == if Serves(old(db.budget), 2)
        then old(db.tokens)[(userId, TransactionsTokenName(year)) := TokenFields(newToken)]
        else old(db.tokens)
      ensures cache.store == if r.Ok?
        then Some(WithTransactions(old(cache.store), year, Datas(db.YearDocs(userId, year)), Some(newToken)))
        else old(cache.store)
    {
      var ok := UserTransactions.DeleteTransactionAndToken(db, userId, transactionId, year, newToken);
      if !ok {
        return Err(NetworkError);
      }
      var list := UserTransactions.GetUserTransactionsByYear(db, userId, year);
      if list.Err? {
        return Err(list.error);
      }
      cache.UpdateTransactions(year, list.value, Some(newToken));
      return Ok(());
    }
  }

  /** After a miss with a present remote token, the snapshot written makes
      the next `syncCategories` (with no remote change) a hit that returns
      the list just fetched. */
  lemma CategoriesMissThenHit(s: Option<CacheStore>, fetched: seq<CategoryWithType>, remote: Option<string>)
    requires Truthy(remote)
    ensures CategoriesHit(Some(WithCategories(s, fetched, remote)), remote)
    ensures WithCategories(s, fetched, remote).categories == Some(fetched)
  {
  }

  /** After a year was synced under a present remote token, the next
      `syncTransactionsYear` (with no remote change) is a hit that returns
      the list just fetched. */
  lemma YearMissThenHit(s: Option<CacheStore>, year: string, fetched: seq<Transaction>, remote: Option<string>)
    requires Truthy(remote)
    ensures YearHit(Some(WithTransactions(s, year, fetched, remote)), year, remote)
    ensures CachedYear(WithTransactions(s, year, fetched, remote), year) == fetched
  {
  }
}
