/** The `updateTransactions` call as src/services/sync.ts writes it:
    `this.cache.updateTransactions(transactions, year, token)` against the
    signature `updateTransactions(year, transactions, token)`. The cache is
    untyped in the sync service, so the call is accepted: the list arrives as
    the year key, and the year as the value. */
module SyncFindings {
  import opened Wrappers
  import opened Entities
  import opened Cache

  const OBJECT_TEXT: string := "[object Object]"

  /** `String(transactions)` used as a property key: each plain object
      converts to "[object Object]", joined by commas; the empty list to "". */
  function JsArrayKey(list: seq<Transaction>): (s: string)
    ensures s == "" <==> list == []
    ensures s != "" ==> s[0] == '['
  {
    if list == [] then ""
    else if |list| == 1 then OBJECT_TEXT
    else OBJECT_TEXT + "," + JsArrayKey(list[1..])
  }

  /** The year-token map the swapped call leaves: the token is filed under
      `String(transactions)`. The year string lands in the snapshot's year
      lists under the same key; a snapshot of this model cannot hold a string
      there, so only the token map is followed. Without the two maps the
      call throws, as `updateTransactions` does. */
  function SwappedCallTokens(s: Option<CacheStore>, list: seq<Transaction>, year: string, token: Option<string>)
    : (r: Result<map<string, Option<string>>>)
    ensures r.Err? <==> Base(s).transactions.None? || Base(s).tokens.transactionTokens.None?
    ensures r.Ok? ==> JsArrayKey(list) in r.value && r.value[JsArrayKey(list)] == token
  {
    var b := Base(s);
    if b.transactions.None? || b.tokens.transactionTokens.None? then Err(TypeError)
    else Ok(b.tokens.transactionTokens.value[JsArrayKey(list) := token])
  }

  /** No key the code reads a year token under (`getFullYear().toString()`)
      is ever the key the swapped call writes: the swapped call leaves every
      year's local token as it was, so `syncTransactionsYear` never sees the
      token it was meant to store. */
  lemma SwappedCallNeverEstablishesYearToken(s: Option<CacheStore>, list: seq<Transaction>, d: Dates.Date, token: Option<string>)
    requires SwappedCallTokens(s, list, YearKey(d), token).Ok?
    ensures var tt := SwappedCallTokens(s, list, YearKey(d), token).value;
      (if YearKey(d) in tt then tt[YearKey(d)] else None) == LocalYearToken(Some(Base(s)), YearKey(d))
  {
    var key := JsArrayKey(list);
    var y := YearKey(d);
    assert key != y by {
      if key != "" {
        assert key[0] == '[' && (y[0] == '-' || '0' <= y[0] <= '9');
      }
    }
  }

  /** Concretely: the first sync of a year with one transaction files the
      remote token "t1" under "[object Object]" and leaves year "2024" without a token. */
  lemma SwappedCallExample(t: Transaction)
    ensures var s := Some(EMPTY_STORE);
      SwappedCallTokens(s, [t], "2024", Some("t1")) == Ok(map["[object Object]" := Some("t1")])
      && LocalYearToken(Some(WithTransactions(s, "2024", [t], Some("t1"))), "2024") == Some("t1")
  {
  }
}
