/** The local cache (`CacheService`, src/services/cache.ts): one snapshot
    record stored under the key 'store' of an IndexedDB object store.

    Every snapshot field is optional: the snapshots `updateCategories` and
    `updateTransactions` write always carry all of them, but the recurring
    expense sync writes `{...store, recurringExpenses, tokens: {...}}`, which
    on an absent snapshot yields a record without `categories`,
    `transactions` and `transactionTokens`. A token field is itself optional
    because the sync layer stores `tokenDoc.data()?.token`, which is
    `undefined` when the token document does not exist. */
module Cache {
  import opened Wrappers
  import opened Entities

  datatype Tokens = Tokens(
    categoriesToken: Option<string>,
    transactionTokens: Option<map<string, Option<string>>>,
    recurringTransactionToken: Option<string>)

  datatype CacheStore = CacheStore(
    categories: Option<seq<CategoryWithType>>,
    transactions: Option<map<string, seq<Transaction>>>,
    recurringExpenses: Option<seq<RecurringExpense>>,
    tokens: Tokens)

  /** The record both update helpers start from when no snapshot is stored. */
  const EMPTY_STORE: CacheStore :=
    CacheStore(Some([]), Some(map[]), None, Tokens(Some(""), Some(map[]), None))

  /** `(await this.getStore()) || {...}`: a stored snapshot is an object, hence truthy. */
  function Base(s: Option<CacheStore>): CacheStore {
    s.GetOr(EMPTY_STORE)
  }

  /** What a truthy category token promises: the categories are there; and
      the year lists and the year tokens are present together. Every
      snapshot this code writes is well formed. */
  predicate WellFormed(s: CacheStore) {
    && (Truthy(s.tokens.categoriesToken) ==> s.categories.Some?)
    && (s.transactions.Some? <==> s.tokens.transactionTokens.Some?)
  }

  /** `store?.tokens.transactionTokens[year]`, where a snapshot without a
      token map reads as having no token (see `LocalYearTokenAsWritten` for
      the read as the source writes it). */
  function LocalYearToken(s: Option<CacheStore>, year: string): Option<string> {
    match s
    case None => None
    case Some(st) =>
      match st.tokens.transactionTokens
      case None => None
      case Some(tt) => if year in tt then tt[year] else None
    }

  /** `store.transactions[year] || []` */
  function CachedYear(s: CacheStore, year: string): seq<Transaction> {
    match s.transactions
    case None => []
    case Some(txs) => if year in txs then txs[year] else []
  }

  /** The snapshot `updateCategories(categories, token)` writes. */
  function WithCategories(s: Option<CacheStore>, categories: seq<CategoryWithType>, token: Option<string>): (r: CacheStore)
    ensures r.categories == Some(categories) && r.tokens.categoriesToken == token
    ensures r.transactions == Base(s).transactions
    ensures r.recurringExpenses == Base(s).recurringExpenses
    ensures r.tokens.transactionTokens == Base(s).tokens.transactionTokens
    ensures r.tokens.recurringTransactionToken == Base(s).tokens.recurringTransactionToken
    ensures WellFormed(Base(s)) ==> WellFormed(r)
  {
    var b := Base(s);
    b.(categories := Some(categories), tokens := b.tokens.(categoriesToken := token))
  }

  /** The snapshot `updateTransactions(year, transactions, token)` writes,
      with the year maps created when the stored snapshot lacks them (the
      source throws there instead: `UpdateTransactionsAsWritten`). */
  function WithTransactions(s: Option<CacheStore>, year: string, list: seq<Transaction>, token: Option<string>): (r: CacheStore)
    ensures r.transactions.Some? && r.transactions.value == Base(s).transactions.GetOr(map[])[year := list]
    ensures LocalYearToken(Some(r), year) == token && CachedYear(r, year) == list
    ensures forall y :: y != year ==> LocalYearToken(Some(r), y) == LocalYearToken(Some(Base(s)), y)
    ensures forall y :: y != year ==> CachedYear(r, y) == CachedYear(Base(s), y)
    ensures r.categories == Base(s).categories && r.tokens.categoriesToken == Base(s).tokens.categoriesToken
    ensures r.recurringExpenses == Base(s).recurringExpenses
    ensures r.tokens.recurringTransactionToken == Base(s).tokens.recurringTransactionToken
    ensures WellFormed(Base(s)) ==> WellFormed(r)
  {
    var b := Base(s);
    var txs := b.transactions.GetOr(map[]);
    var tt := b.tokens.transactionTokens.GetOr(map[]);
    b.(transactions := Some(txs[year := list]),
       tokens := b.tokens.(transactionTokens := Some(tt[year := token])))
  }

  /** `updateTransactions` as the source writes it: `store.transactions[year] = …`
      and `store.tokens.transactionTokens[year] = …` throw a TypeError when
      the snapshot lacks either map, and nothing is written. */
  function UpdateTransactionsAsWritten(s: Option<CacheStore>, year: string, list: seq<Transaction>, token: Option<string>): (r: Result<CacheStore>)
    ensures r.Err? <==> Base(s).transactions.None? || Base(s).tokens.transactionTokens.None?
    ensures r.Ok? ==> r.value == WithTransactions(s, year, list, token)
  {
    var b := Base(s);
    if b.transactions.None? || b.tokens.transactionTokens.None? then Err(TypeError)
    else Ok(WithTransactions(s, year, list, token))
  }

  /** `store?.tokens.transactionTokens[year]` as the source writes it: a
      snapshot without a token map makes the index throw. */
  function LocalYearTokenAsWritten(s: Option<CacheStore>, year: string): (r: Result<Option<string>>)
    ensures r.Err? <==> s.Some? && s.value.tokens.transactionTokens.None?
    ensures r.Ok? ==> r.value == LocalYearToken(s, year)
  {
    if s.Some? && s.value.tokens.transactionTokens.None? then Err(TypeError)
    else Ok(LocalYearToken(s, year))
  }

  /** The snapshot the recurring expense sync writes:
      `{...store, recurringExpenses: list, tokens: {...store?.tokens, recurringTransactionToken: token}}`.
      Spreading an absent snapshot contributes no field. */
  function WithRecurring(s: Option<CacheStore>, list: seq<RecurringExpense>, token: string): (r: CacheStore)
    ensures r.recurringExpenses == Some(list) && r.tokens.recurringTransactionToken == Some(token)
    ensures s.Some? ==> r.categories == s.value.categories && r.transactions == s.value.transactions
    ensures s.Some? ==> r.tokens.(recurringTransactionToken := None) == s.value.tokens.(recurringTransactionToken := None)
    ensures s.None? ==> r == CacheStore(None, None, Some(list), Tokens(None, None, Some(token)))
    ensures s.Some? && WellFormed(s.value) ==> WellFormed(r)
    ensures s.None? ==> WellFormed(r)
  {
    match s
    case None => CacheStore(None, None, Some(list), Tokens(None, None, Some(token)))
    case Some(st) => st.(recurringExpenses := Some(list), tokens := st.tokens.(recurringTransactionToken := Some(token)))
  }

  class CacheService {
    /** The record under key 'store', if any. */
    var store: Option<CacheStore>

    predicate Valid()
      reads this
    {
      store.Some? ==> WellFormed(store.value)
    }

    constructor ()
      ensures store == None && Valid()
    {
      store := None;
    }

    /** `getStore()` */
    method GetStore() returns (s: Option<CacheStore>)
      ensures s == store
    {
      s := store;
    }

    /** `setStore(s)`: the whole record is replaced. */
    method SetStore(s: CacheStore)
      modifies this
      ensures store == Some(s)
      ensures Valid() <==> WellFormed(s)
    {
      store := Some(s);
    }

    /** `updateCategories(categories, token)` */
    method UpdateCategories(categories: seq<CategoryWithType>, token: Option<string>)
      modifies this
      ensures store == Some(WithCategories(old(store), categories, token))
      ensures old(Valid()) ==> Valid()
    {
      var s := GetStore();
      SetStore(WithCategories(s, categories, token));
    }

    /** `updateTransactions(year, transactions, token)` */
    method UpdateTransactions(year: string, list: seq<Transaction>, token: Option<string>)
      modifies this
      ensures store == Some(WithTransactions(old(store), year, list, token))
      ensures old(Valid()) ==> Valid()
    {
      var s := GetStore();
      SetStore(WithTransactions(s, year, list, token));
    }
  }

  /** `setStore(s)` followed by `getStore()` returns exactly `s`. */
  method SetThenGet(c: CacheService, s: CacheStore) returns (r: Option<CacheStore>)
    modifies c
    ensures r == Some(s)
  {
    c.SetStore(s);
    r := c.GetStore();
  }

  /** Applying either update twice yields the snapshot of applying it once. */
  lemma UpdatesIdempotent(s: Option<CacheStore>, categories: seq<CategoryWithType>, ctoken: Option<string>,
                          year: string, list: seq<Transaction>, ytoken: Option<string>)
    ensures WithCategories(Some(WithCategories(s, categories, ctoken)), categories, ctoken) == WithCategories(s, categories, ctoken)
    ensures WithTransactions(Some(WithTransactions(s, year, list, ytoken)), year, list, ytoken) == WithTransactions(s, year, list, ytoken)
  {
    var once := WithTransactions(s, year, list, ytoken);
    var twice := WithTransactions(Some(once), year, list, ytoken);
    assert twice.transactions.value == once.transactions.value;
    assert twice.tokens.transactionTokens.value == once.tokens.transactionTokens.value;
  }

  /** On an absent snapshot both updates start from the empty record. */
  lemma UpdatesOnAbsentStore(categories: seq<CategoryWithType>, ctoken: Option<string>,
                             year: string, list: seq<Transaction>, ytoken: Option<string>)
    ensures WithCategories(None, categories, ctoken) ==
      CacheStore(Some(categories), Some(map[]), None, Tokens(ctoken, Some(map[]), None))
    ensures WithTransactions(None, year, list, ytoken) ==
      CacheStore(Some([]), Some(map[year := list]), None, Tokens(Some(""), Some(map[year := ytoken]), None))
  {
  }

  /** The snapshot the recurring sync writes on an empty cache breaks both
      year operations of the source. */
  lemma RecurringSnapshotBreaksYearOperations(list: seq<RecurringExpense>, token: string,
                                              year: string, txs: seq<Transaction>, ytoken: Option<string>)
    ensures UpdateTransactionsAsWritten(Some(WithRecurring(None, list, token)), year, txs, ytoken) == Err(TypeError)
    ensures LocalYearTokenAsWritten(Some(WithRecurring(None, list, token)), year) == Err(TypeError)
  {
  }
}
