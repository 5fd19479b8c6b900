/** The remote transaction adapter (`UserTransactions`,
    src/api/database/modules/subcollections/user.transactions.ts): the
    transactions of one user are filed by year, `users/{u}/transactions/{year}/transactions/{id}`,
    and every write mints a new token in `users/{u}/tokens/transactions_{year}`.
    The minted token (`new Date().toISOString()`) is a parameter. */
module UserTransactions {
  import opened Wrappers
  import opened Entities
  import opened Firestore

  /** The document `setDoc(ref, t, {merge: true})` leaves over `stored`: the
      fields `t` carries replace the stored ones, and an absent description
      keeps the stored description. */
  function Merged(stored: Option<Transaction>, t: Transaction): (r: Transaction)
    ensures r.(description := t.description) == t
    ensures t.description.Some? || stored.None? ==> r == t
    ensures t.description.None? && stored.Some? ==> r.description == stored.value.description
  {
    if t.description.None? && stored.Some? then t.(description := stored.value.description) else t
  }

  /** The year collection after writing `t` with or without `merge`. */
  function AfterWrite(docs: seq<Doc<Transaction>>, t: Transaction, merge: bool): (r: seq<Doc<Transaction>>)
    ensures Find(r, t.id) == Some(if merge then Merged(Find(docs, t.id), t) else t)
    ensures forall k :: k != t.id ==> Find(r, k) == Find(docs, k)
    ensures UniqueIds(docs) ==> UniqueIds(r)
  {
    var data := if merge then Merged(Find(docs, t.id), t) else t;
    assert UniqueIds(docs) ==> UniqueIds(Put(docs, t.id, data)) by {
      if UniqueIds(docs) {
        PutKeepsUniqueIds(docs, t.id, data);
      }
    }
    Put(docs, t.id, data)
  }

  /** `getUserTransactionsByYear(userId, year)`: exactly the documents of that year. */
  method GetUserTransactionsByYear(db: Firestore, userId: string, year: string) returns (r: Result<seq<Transaction>>)
    modifies db`budget
    ensures db.budget == Spend(old(db.budget), 1)
    ensures r == if Serves(old(db.budget), 1) then Ok(Datas(db.YearDocs(userId, year))) else Err(NetworkError)
  {
    var ok := db.Request();
    if !ok {
      return Err(NetworkError);
    }
    return Ok(Datas(db.YearDocs(userId, year)));
  }

  /** The two writes of a create or an update: the transaction document
      under the year of its timestamp, then that year's token. Shared by
      this adapter and by the sync service, which issue the same two calls. */
  method WriteTransactionAndToken(db: Firestore, userId: string, t: Transaction, merge: bool, newToken: string)
    returns (ok: bool)
    modifies db`budget, db`transactions, db`tokens
    ensures ok == Serves(old(db.budget), 2)
    ensures db.budget == Spend(old(db.budget), 2)
    ensures var key := (userId, YearKey(t.timestamp));
      db.transactions == if Serves(old(db.budget), 1)
        then old(db.transactions)[key := AfterWrite(old(db.YearDocs(key.0, key.1)), t, merge)]
        else old(db.transactions)
    ensures db.tokens == if ok
      then old(db.tokens)[(userId, TransactionsTokenName(YearKey(t.timestamp))) := TokenFields(newToken)]
      else old(db.tokens)
  {
    var year := YearKey(t.timestamp);
    ok := db.Request();
    if !ok {
      return;
    }
    db.transactions := db.transactions[(userId, year) := AfterWrite(db.YearDocs(userId, year), t, merge)];
    ok := db.Request();
    if !ok {
      return;
    }
    db.tokens := db.tokens[(userId, TransactionsTokenName(year)) := TokenFields(newToken)];
  }

  /** `createUserTransaction(userId, t)`: `t` on success, `null` on any failure. */
  method CreateUserTransaction(db: Firestore, userId: string, t: Transaction, newToken: string)
    returns (r: Option<Transaction>)
    modifies db`budget, db`transactions, db`tokens
    ensures r == if Serves(old(db.budget), 2) then Some(t) else None
    ensures db.budget == Spend(old(db.budget), 2)
    ensures var key := (userId, YearKey(t.timestamp));
      db.transactions == if Serves(old(db.budget), 1)
        then old(db.transactions)[key := Put(old(db.YearDocs(key.0, key.1)), t.id, t)]
        else old(db.transactions)
    ensures db.tokens == if r.Some?
      then old(db.tokens)[(userId, TransactionsTokenName(YearKey(t.timestamp))) := TokenFields(newToken)]
      else old(db.tokens)
  {
    var ok := WriteTransactionAndToken(db, userId, t, false, newToken);
    r := if ok then Some(t) else None;
  }

  /** `updateUserTransaction(userId, t)`: a merge write under the year of the
      NEW timestamp, so a copy filed under another year stays in place. */
  method UpdateUserTransaction(db: Firestore, userId: string, t: Transaction, newToken: string)
    returns (r: Option<Transaction>)
    modifies db`budget, db`transactions, db`tokens
    ensures r == if Serves(old(db.budget), 2) then Some(t) else None
    ensures db.budget == Spend(old(db.budget), 2)
    ensures var key := (userId, YearKey(t.timestamp));
      db.transactions == if Serves(old(db.budget), 1)
        then old(db.transactions)[key := AfterWrite(old(db.YearDocs(key.0, key.1)), t, true)]
        else old(db.transactions)
    ensures forall y :: y != YearKey(t.timestamp) ==> db.YearDocs(userId, y) == old(db.YearDocs(userId, y))
    ensures db.tokens == if r.Some?
      then old(db.tokens)[(userId, TransactionsTokenName(YearKey(t.timestamp))) := TokenFields(newToken)]
      else old(db.tokens)
  {
    var ok := WriteTransactionAndToken(db, userId, t, true, newToken);
    r := if ok then Some(t) else None;
  }

  /** The two writes of a delete: the document, then the year's token. */
  method DeleteTransactionAndToken(db: Firestore, userId: string, transactionId: string, year: string, newToken: string)
    returns (ok: bool)
    modifies db`budget, db`transactions, db`tokens
    ensures ok == Serves(old(db.budget), 2)
    ensures db.budget == Spend(old(db.budget), 2)
    ensures db.transactions == if Serves(old(db.budget), 1)
      then old(db.transactions)[(userId, year) := Without(old(db.YearDocs(userId, year)), transactionId)]
      else old(db.transactions)
    ensures db.tokens == if ok
      then old(db.tokens)[(userId, TransactionsTokenName(year)) := TokenFields(newToken)]
      else old(db.tokens)
  {
    ok := db.Request();
    if !ok {
      return;
    }
    db.transactions := db.transactions[(userId, year) := Without(db.YearDocs(userId, year), transactionId)];
    ok := db.Request();
    if !ok {
      return;
    }
    db.tokens := db.tokens[(userId, TransactionsTokenName(year)) := TokenFields(newToken)];
  }

  /** `deleteTransaction(userId, id, year)`: removes only that id from that
      year and mints the year's token; a failure is rethrown. */
  method DeleteTransaction(db: Firestore, userId: string, transactionId: string, year: string, newToken: string)
    returns (r: Result<()>)
    modifies db`budget, db`transactions, db`tokens
    ensures r == if Serves(old(db.budget), 2) then Ok(()) else Err(NetworkError)
    ensures db.budget == Spend(old(db.budget), 2)
    ensures db.transactions == if Serves(old(db.budget), 1)
      then old(db.transactions)[(userId, year) := Without(old(db.YearDocs(userId, year)), transactionId)]
      else old(db.transactions)
    ensures db.tokens == if r.Ok?
      then old(db.tokens)[(userId, TransactionsTokenName(year)) := TokenFields(newToken)]
      else old(db.tokens)
  {
    var ok := DeleteTransactionAndToken(db, userId, transactionId, year, newToken);
    r := if ok then Ok(()) else Err(NetworkError);
  }

  /** `getYearToken(userId, year)`: `tokenDoc.data()?.token || null`. */
  method GetYearToken(db: Firestore, userId: string, year: string) returns (r: Result<Option<string>>)
    modifies db`budget
    ensures db.budget == Spend(old(db.budget), 1)
    ensures r.Err? <==> !Serves(old(db.budget), 1)
    ensures r.Ok? ==> (r.value.Some? <==> Truthy(db.TokenField(userId, TransactionsTokenName(year), "token")))
    ensures r.Ok? && r.value.Some? ==> r.value == db.TokenField(userId, TransactionsTokenName(year), "token")
  {
    var ok := db.Request();
    if !ok {
      return Err(NetworkError);
    }
    var token := db.TokenField(userId, TransactionsTokenName(year), "token");
    r := Ok(if Truthy(token) then token else None);
  }
}
