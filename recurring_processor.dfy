/** The recurring expense processor (`RecurringProcessor`,
    src/services/recurringProcessor.ts): for every recurring definition it
    materialises one transaction per occurrence that is due by `today`,
    stepping the next occurrence by the definition's frequency and writing
    the stepped definition back after each transaction.

    The current user, the clock, the UUID generator and the ISO stamp of
    the tokens written during the run are parameters. */
module RecurringProcessor {
  import opened Wrappers
  import opened Dates
  import opened Entities
  import opened Firestore
  import opened Cache
  import opened UserRecurringExpenses
  import opened RecurringSync
  import Sync

  /** The `switch` on the frequency: the next occurrence after `d`, or
      nothing for an unknown frequency (`newNextOccurrence` stays undefined). */
  function Step(f: Frequency, d: Date): (r: Option<Date>)
    ensures r.None? <==> f.Unrecognised?
    ensures r.Some? ==> EpochMs(d) < EpochMs(r.value)
  {
    StepAt(f, d, 1)
  }

  function StepAt(f: Frequency, d: Date, k: nat): (r: Option<Date>)
    ensures r.None? <==> f.Unrecognised?
    ensures r.Some? ==> EpochMs(d) < EpochMs(r.value)
  {
    if k > 0 then StepAt(f, d, k - 1) else
    match f
    case Weekly => AddWeeksIsLater(d, 1); Some(AddWeeks(d, 1))
    case Monthly => AddMonthsIsLater(d, 1); Some(AddMonths(d, 1))
    case Yearly => AddYearsIsLater(d, 1); Some(AddYears(d, 1))
    case Unrecognised(_) => None
  }

  function Pending(d: Date, today: Date): nat {
    if NotAfter(d, today) then EpochMs(today) - EpochMs(d) + 1 else 0
  }

  /** A later occurrence has fewer milliseconds left until today is over. */
  lemma PendingDrops(d: Date, later: Date, today: Date)
    requires NotAfter(d, today) && EpochMs(d) < EpochMs(later)
    ensures Pending(later, today) < Pending(d, today)
  {
  }

  /** The occurrences from `d` on that are due by `today`: `d`, its step,
      the step of that, … An unknown frequency stops after the first. */
  function Occurrences(f: Frequency, d: Date, today: Date): seq<Date>
    decreases Pending(d, today)
  {
    if !NotAfter(d, today) then []
    else
      match Step(f, d)
      case None => [d]
      case Some(next) => [d] + Occurrences(f, next, today)
  }

  /** Every occurrence is due, they start at `d`, they grow strictly, they
      are steps of one another, and the step after the last is no longer due:
      the processor catches a definition up to `today` exactly. */
  lemma {:induction false} OccurrencesProperties(f: Frequency, d: Date, today: Date)
    ensures var occ := Occurrences(f, d, today);
      && (occ == [] <==> !NotAfter(d, today))
      && (occ != [] ==> occ[0] == d)
      && (forall k :: 0 <= k < |occ| ==> NotAfter(occ[k], today))
      && (forall k :: 0 <= k < |occ| - 1 ==> Step(f, occ[k]) == Some(occ[k + 1]))
      && (forall k, j :: 0 <= k < j < |occ| ==> EpochMs(occ[k]) < EpochMs(occ[j]))
      && (occ != [] && Step(f, occ[|occ| - 1]).Some? ==> !NotAfter(Step(f, occ[|occ| - 1]).value, today))
    decreases Pending(d, today)
  {
    var occ := Occurrences(f, d, today);
    if NotAfter(d, today) && Step(f, d).Some? {
      var next := Step(f, d).value;
      var rest := Occurrences(f, next, today);
      OccurrencesProperties(f, next, today);
      assert occ == [d] + rest;
      assert forall k :: 1 <= k < |occ| ==> occ[k] == rest[k - 1];
      forall k, j | 0 <= k < j < |occ| ensures EpochMs(occ[k]) < EpochMs(occ[j]) {
        if k == 0 {
          assert EpochMs(d) < EpochMs(next) <= EpochMs(rest[j - 1]);
        }
      }
    }
  }

  /** An unknown frequency yields at most one transaction, however overdue. */
  lemma UnknownFrequencyOnce(name: string, d: Date, today: Date)
    ensures Occurrences(Unrecognised(name), d, today) == if NotAfter(d, today) then [d] else []
  {
  }

  /** One step of the run: a transaction written through the sync service,
      or a stepped definition written back through the recurring sync. */
  datatype Action = Materialize(t: Transaction) | Persist(e: RecurringExpense)

  /** The transaction built for the occurrence `d` of `e`. */
  function MakeTransaction(id: string, e: RecurringExpense, d: Date, userId: string): (t: Transaction)
    ensures t.id == id && t.timestamp == d && t.userId == userId
    ensures t.amount == e.amount && t.categoryId == e.categoryId && t.description == e.description
  {
    Transaction(id, e.amount, e.categoryId, d, e.description, userId)
  }

  function TxCount(plan: seq<Action>): nat {
    if plan == [] then 0 else (if plan[0].Materialize? then 1 else 0) + TxCount(plan[1..])
  }

  /** The dates of the transactions a plan materialises, in order. */
  function TxDates(plan: seq<Action>): seq<Date> {
    if plan == [] then [] else (if plan[0].Materialize? then [plan[0].t.timestamp] else []) + TxDates(plan[1..])
  }

  /** The date the inner loop has reached after `k` rounds from `d`. */
  function Stepped(f: Frequency, d: Date, k: nat): Date {
    if k == 0 then d
    else
      var prev := Stepped(f, d, k - 1);
      match Step(f, prev)
      case None => prev
      case Some(next) => next
  }

  /** The first `k` rounds from `d` each found a due occurrence and a known frequency. */
  predicate FullRounds(f: Frequency, d: Date, today: Date, k: nat) {
    k == 0 || (FullRounds(f, d, today, k - 1) && NotAfter(Stepped(f, d, k - 1), today)
               && Step(f, Stepped(f, d, k - 1)).Some?)
  }

  /** The actions of the first `k` rounds of the inner loop for `e` from `d`. */
  function Rounds(e: RecurringExpense, d: Date, userId: string, uuid: nat -> string, n0: nat, k: nat): seq<Action> {
    if k == 0 then []
    else
      Rounds(e, d, userId, uuid, n0, k - 1)
      + [Materialize(MakeTransaction(uuid(n0 + k - 1), e, Stepped(e.frequency, d, k - 1), userId))]
      + [Persist(e.(nextOccurrence := Stepped(e.frequency, d, k)))]
  }

  lemma {:induction false} TxCountAppend(a: seq<Action>, b: seq<Action>)
    ensures TxCount(a + b) == TxCount(a) + TxCount(b)
  {
    if a == [] {
      assert a + b == b;
    } else {
      assert (a + b)[0] == a[0];
      assert (a + b)[1..] == a[1..] + b;
      TxCountAppend(a[1..], b);
    }
  }

  lemma TxCountOne(a: Action)
    ensures TxCount([a]) == if a.Materialize? then 1 else 0
  {
    assert [a][1..] == [];
  }

  /** After `k` full rounds the plan is the rounds' actions followed by the
      plan from the date reached; the rounds materialised `k` transactions. */
  lemma {:induction false} RoundsSplitPlan(e: RecurringExpense, d: Date, today: Date, userId: string,
                                           uuid: nat -> string, n0: nat, k: nat)
    requires FullRounds(e.frequency, d, today, k)
    ensures ExpensePlan(e, d, today, userId, uuid, n0)
      == Rounds(e, d, userId, uuid, n0, k) + ExpensePlan(e, Stepped(e.frequency, d, k), today, userId, uuid, n0 + k)
    ensures TxCount(Rounds(e, d, userId, uuid, n0, k)) == k
  {
    if k > 0 {
      RoundsSplitPlan(e, d, today, userId, uuid, n0, k - 1);
      var prev := Stepped(e.frequency, d, k - 1);
      var t := MakeTransaction(uuid(n0 + k - 1), e, prev, userId);
      var p := Persist(e.(nextOccurrence := Stepped(e.frequency, d, k)));
      ExpensePlanStep(e, prev, today, userId, uuid, n0 + k - 1);
      assert [Materialize(t), p] == [Materialize(t)] + [p];
      TxCountAppend(Rounds(e, d, userId, uuid, n0, k - 1) + [Materialize(t)], [p]);
      TxCountAppend(Rounds(e, d, userId, uuid, n0, k - 1), [Materialize(t)]);
      TxCountOne(Materialize(t));
      TxCountOne(p);
    }
  }

  /** The actions of `k` full rounds are a prefix of the plan. */
  lemma RoundsPrefix(e: RecurringExpense, d: Date, today: Date, userId: string, uuid: nat -> string, n0: nat, k: nat)
    requires FullRounds(e.frequency, d, today, k)
    ensures Rounds(e, d, userId, uuid, n0, k) <= ExpensePlan(e, d, today, userId, uuid, n0)
  {
    RoundsSplitPlan(e, d, today, userId, uuid, n0, k);
    var done := Rounds(e, d, userId, uuid, n0, k);
    var rest := ExpensePlan(e, Stepped(e.frequency, d, k), today, userId, uuid, n0 + k);
    assert (done + rest)[..|done|] == done;
  }

  /** So are they followed by the transaction of a round whose write-back then fails. */
  lemma RoundsPrefixMid(e: RecurringExpense, d: Date, today: Date, userId: string, uuid: nat -> string, n0: nat, k: nat)
    requires FullRounds(e.frequency, d, today, k)
    requires NotAfter(Stepped(e.frequency, d, k), today)
    ensures Rounds(e, d, userId, uuid, n0, k)
      + [Materialize(MakeTransaction(uuid(n0 + k), e, Stepped(e.frequency, d, k), userId))]
      <= ExpensePlan(e, d, today, userId, uuid, n0)
  {
    RoundsSplitPlan(e, d, today, userId, uuid, n0, k);
    var done := Rounds(e, d, userId, uuid, n0, k);
    var rest := ExpensePlan(e, Stepped(e.frequency, d, k), today, userId, uuid, n0 + k);
    ExpensePlanStep(e, Stepped(e.frequency, d, k), today, userId, uuid, n0 + k);
    assert (done + rest)[..|done| + 1] == done + [rest[0]];
  }

  /** A round that steps the definition to `x` is a full round, and its
      actions, the write-back included, are a prefix of the plan. */
  lemma RoundStepped(e: RecurringExpense, d: Date, today: Date, userId: string, uuid: nat -> string, n0: nat, k: nat, x: Date)
    requires FullRounds(e.frequency, d, today, k) && NotAfter(Stepped(e.frequency, d, k), today)
    requires Step(e.frequency, Stepped(e.frequency, d, k)) == Some(x)
    ensures FullRounds(e.frequency, d, today, k + 1) && Stepped(e.frequency, d, k + 1) == x
    ensures Rounds(e, d, userId, uuid, n0, k + 1) == Rounds(e, d, userId, uuid, n0, k)
      + [Materialize(MakeTransaction(uuid(n0 + k), e, Stepped(e.frequency, d, k), userId))]
      + [Persist(e.(nextOccurrence := x))]
    ensures Rounds(e, d, userId, uuid, n0, k + 1) <= ExpensePlan(e, d, today, userId, uuid, n0)
  {
    RoundsPrefix(e, d, today, userId, uuid, n0, k + 1);
  }

  /** A due occurrence with an unknown frequency ends the plan. */
  lemma RoundsFinish(e: RecurringExpense, d: Date, today: Date, userId: string, uuid: nat -> string, n0: nat, k: nat)
    requires FullRounds(e.frequency, d, today, k)
    requires NotAfter(Stepped(e.frequency, d, k), today) && Step(e.frequency, Stepped(e.frequency, d, k)).None?
    ensures var acts := Rounds(e, d, userId, uuid, n0, k)
      + [Materialize(MakeTransaction(uuid(n0 + k), e, Stepped(e.frequency, d, k), userId))];
      acts == ExpensePlan(e, d, today, userId, uuid, n0) && TxCount(acts) == k + 1
  {
    RoundsSplitPlan(e, d, today, userId, uuid, n0, k);
    ExpensePlanStep(e, Stepped(e.frequency, d, k), today, userId, uuid, n0 + k);
    TxCountAppend(Rounds(e, d, userId, uuid, n0, k),
                  [Materialize(MakeTransaction(uuid(n0 + k), e, Stepped(e.frequency, d, k), userId))]);
    TxCountOne(Materialize(MakeTransaction(uuid(n0 + k), e, Stepped(e.frequency, d, k), userId)));
  }

  /** An occurrence no longer due ends the plan. */
  lemma RoundsEnd(e: RecurringExpense, d: Date, today: Date, userId: string, uuid: nat -> string, n0: nat, k: nat)
    requires FullRounds(e.frequency, d, today, k)
    requires !NotAfter(Stepped(e.frequency, d, k), today)
    ensures Rounds(e, d, userId, uuid, n0, k) == ExpensePlan(e, d, today, userId, uuid, n0)
    ensures TxCount(Rounds(e, d, userId, uuid, n0, k)) == k
  {
    RoundsSplitPlan(e, d, today, userId, uuid, n0, k);
    assert ExpensePlan(e, Stepped(e.frequency, d, k), today, userId, uuid, n0 + k) == [];
  }

  /** `sync.updateTransactionAndCache(transaction)` seen from the run: its
      document write lands iff the first call is served, and it succeeds
      only if the re-read after it does too. */
  method WriteTransaction(sync: Sync.SyncService, cache: CacheService, db: Firestore, userId: string,
                          t: Transaction, stamp: string,
                          ghost m0: map<(string, string), seq<Doc<Transaction>>>, ghost done: seq<Action>)
    returns (ok: bool)
    requires sync.cache == cache && sync.db == db && sync.userId == userId
    requires cache.Valid()
    requires db.transactions == Materialized(m0, userId, done)
    modifies cache, db`budget, db`transactions, db`tokens
    ensures cache.Valid()
    ensures ok <==> Serves(old(db.budget), 4)
    ensures db.transactions == Materialized(m0, userId, if Serves(old(db.budget), 1) then done + [Materialize(t)] else done)
  {
    var written := sync.UpdateTransactionAndCache(t, stamp);
    ok := written.Ok?;
    MaterializedSnoc(m0, userId, done, Materialize(t));
  }

  /** `RecurringSyncService.updateRecurringExpenseAndCache(userId, …)` seen
      from the run: the stepped definition is written over the stored one
      iff the first call is served (and a stored one exists), and the call
      succeeds only if the cache reload after it does too. */
  method WriteDefinition(cache: CacheService, db: Firestore, userId: string, e: RecurringExpense, stamp: string)
    returns (ok: bool)
    requires cache.Valid()
    modifies cache, db`budget, db`recurring, db`tokens
    ensures cache.Valid()
    ensures ok <==> Serves(old(db.budget), 3) && Find(old(db.RecurringDocs(userId)), e.id).Some?
    ensures db.recurring == if Serves(old(db.budget), 1) then PutDefinition(old(db.recurring), userId, e) else old(db.recurring)
  {
    var persisted := UpdateRecurringExpenseAndCache(cache, db, userId, e, stamp);
    ok := persisted.Ok?;
  }

  /** The inner `while` for one definition `e` whose next occurrence is `d`;
      the `n`-th UUID of the run goes to the next transaction. */
  function ExpensePlan(e: RecurringExpense, d: Date, today: Date, userId: string, uuid: nat -> string, n: nat): seq<Action>
    decreases Pending(d, today)
  {
    if !NotAfter(d, today) then []
    else
      var t := MakeTransaction(uuid(n), e, d, userId);
      match Step(e.frequency, d)
      case None => [Materialize(t)]
      case Some(next) => [Materialize(t), Persist(e.(nextOccurrence := next))] + ExpensePlan(e, next, today, userId, uuid, n + 1)
  }

  /** The outer `for … of` over the definitions. */
  function Plan(list: seq<RecurringExpense>, today: Date, userId: string, uuid: nat -> string, n: nat): seq<Action> {
    if list == [] then []
    else
      var p := ExpensePlan(list[0], list[0].nextOccurrence, today, userId, uuid, n);
      p + Plan(list[1..], today, userId, uuid, n + TxCount(p))
  }

  /** A definition's plan materialises exactly its due occurrences, one
      transaction each. */
  lemma {:induction false} ExpensePlanMatchesOccurrences(e: RecurringExpense, d: Date, today: Date,
                                                       userId: string, uuid: nat -> string, n: nat)
    ensures var plan := ExpensePlan(e, d, today, userId, uuid, n);
      TxDates(plan) == Occurrences(e.frequency, d, today) && TxCount(plan) == |Occurrences(e.frequency, d, today)|
    decreases Pending(d, today)
  {
    if NotAfter(d, today) {
      match Step(e.frequency, d)
      case None =>
      case Some(next) =>
        ExpensePlanMatchesOccurrences(e, next, today, userId, uuid, n + 1);
    }
  }

  /** Every transaction of `plan` carries the amount, category and
      description of `e` under the user; each written-back definition
      differs from `e` only in its next occurrence, which is the step past
      the transaction before it. */
  predicate CarriesDefinition(plan: seq<Action>, e: RecurringExpense, userId: string) {
    forall k :: 0 <= k < |plan| ==>
      && (plan[k].Materialize? ==>
            plan[k].t.amount == e.amount && plan[k].t.categoryId == e.categoryId
            && plan[k].t.description == e.description && plan[k].t.userId == userId)
      && (plan[k].Persist? ==>
            k > 0 && plan[k - 1].Materialize? && Step(e.frequency, plan[k - 1].t.timestamp).Some?
            && plan[k].e == e.(nextOccurrence := Step(e.frequency, plan[k - 1].t.timestamp).value))
  }

  lemma {:induction false} ExpensePlanCarriesDefinition(e: RecurringExpense, d: Date, today: Date,
                                                      userId: string, uuid: nat -> string, n: nat)
    ensures CarriesDefinition(ExpensePlan(e, d, today, userId, uuid, n), e, userId)
    decreases Pending(d, today)
  {
    if NotAfter(d, today) {
      var t := MakeTransaction(uuid(n), e, d, userId);
      match Step(e.frequency, d)
      case None =>
      case Some(next) =>
        var plan := ExpensePlan(e, d, today, userId, uuid, n);
        var rest := ExpensePlan(e, next, today, userId, uuid, n + 1);
        ExpensePlanCarriesDefinition(e, next, today, userId, uuid, n + 1);
        assert plan == [Materialize(t), Persist(e.(nextOccurrence := next))] + rest;
        assert forall k :: 2 <= k < |plan| ==> plan[k] == rest[k - 2];
    }
  }

  /** The transactions store with `t` written under its year (`setDoc`
      without merge). */
  function PutTransaction(m: map<(string, string), seq<Doc<Transaction>>>, userId: string, t: Transaction)
    : map<(string, string), seq<Doc<Transaction>>>
  {
    var key := (userId, YearKey(t.timestamp));
    m[key := Put(if key in m then m[key] else [], t.id, t)]
  }

  /** The transactions store after the materialisations among `done`, in order. */
  function Materialized(m: map<(string, string), seq<Doc<Transaction>>>, userId: string, done: seq<Action>)
    : map<(string, string), seq<Doc<Transaction>>>
  {
    if done == [] then m
    else
      var before := Materialized(m, userId, done[..|done| - 1]);
      match done[|done| - 1]
      case Materialize(t) => PutTransaction(before, userId, t)
      case Persist(_) => before
  }

  lemma MaterializedSnoc(m: map<(string, string), seq<Doc<Transaction>>>, userId: string, done: seq<Action>, a: Action)
    ensures Materialized(m, userId, done + [a]) ==
      if a.Materialize? then PutTransaction(Materialized(m, userId, done), userId, a.t) else Materialized(m, userId, done)
  {
    assert (done + [a])[..|done|] == done;
  }

  /** Materialising `done` and then `acts` is materialising `done + acts`. */
  lemma {:induction false} MaterializedAppend(m: map<(string, string), seq<Doc<Transaction>>>, userId: string,
                                              done: seq<Action>, acts: seq<Action>)
    ensures Materialized(Materialized(m, userId, done), userId, acts) == Materialized(m, userId, done + acts)
    decreases |acts|
  {
    if acts == [] {
      assert done + acts == done;
    } else {
      var init, last := acts[..|acts| - 1], acts[|acts| - 1];
      assert acts == init + [last];
      assert done + acts == (done + init) + [last];
      MaterializedAppend(m, userId, done, init);
      MaterializedSnoc(Materialized(m, userId, done), userId, init, last);
      MaterializedSnoc(m, userId, done + init, last);
    }
  }

  /** The recurring store after `updateRecurringExpenseAndCache(userId, e)`
      wrote: all of `e` over the stored definition with its id. Without a
      stored one nothing is written (the update throws). */
  function PutDefinition(m: map<string, seq<Doc<RecurringExpense>>>, userId: string, e: RecurringExpense)
    : map<string, seq<Doc<RecurringExpense>>>
  {
    var docs := DocsOf(m, userId);
    match Find(docs, e.id)
    case None => m
    case Some(stored) => m[userId := Put(docs, e.id, Apply(FullPatch(e), stored))]
  }

  /** The recurring store after the write-backs among `done`, in order. */
  function Persisted(m: map<string, seq<Doc<RecurringExpense>>>, userId: string, done: seq<Action>)
    : map<string, seq<Doc<RecurringExpense>>>
  {
    if done == [] then m
    else
      var before := Persisted(m, userId, done[..|done| - 1]);
      match done[|done| - 1]
      case Materialize(_) => before
      case Persist(e) => PutDefinition(before, userId, e)
  }

  lemma PersistedSnoc(m: map<string, seq<Doc<RecurringExpense>>>, userId: string, done: seq<Action>, a: Action)
    ensures Persisted(m, userId, done + [a]) ==
      if a.Persist? then PutDefinition(Persisted(m, userId, done), userId, a.e) else Persisted(m, userId, done)
  {
    assert (done + [a])[..|done|] == done;
  }

  /** Writing back `done` and then `acts` is writing back `done + acts`. */
  lemma {:induction false} PersistedAppend(m: map<string, seq<Doc<RecurringExpense>>>, userId: string,
                                           done: seq<Action>, acts: seq<Action>)
    ensures Persisted(Persisted(m, userId, done), userId, acts) == Persisted(m, userId, done + acts)
    decreases |acts|
  {
    if acts == [] {
      assert done + acts == done;
    } else {
      var init, last := acts[..|acts| - 1], acts[|acts| - 1];
      assert acts == init + [last];
      assert done + acts == (done + init) + [last];
      PersistedAppend(m, userId, done, init);
      PersistedSnoc(Persisted(m, userId, done), userId, init, last);
      PersistedSnoc(m, userId, done + init, last);
    }
  }

  /** A transaction write that is lost, while the write-backs around it
      land, leaves the definitions exactly as if it had landed: the stored
      `nextOccurrence` still moves past the occurrence, and nothing records
      that its transaction is missing. */
  lemma LostOccurrenceKeepsDefinitions(m: map<string, seq<Doc<RecurringExpense>>>, userId: string,
                                       before: seq<Action>, t: Transaction, after: seq<Action>)
    ensures Persisted(m, userId, before + [Materialize(t)] + after) == Persisted(m, userId, before + after)
  {
    PersistedSnoc(m, userId, before, Materialize(t));
    PersistedAppend(m, userId, before + [Materialize(t)], after);
    PersistedAppend(m, userId, before, after);
  }

  /** The next occurrence the inner loop leaves a definition at: stepping
      from `d` while the occurrence is due. For a known frequency it is no
      longer due. */
  function Resume(f: Frequency, d: Date, today: Date): (r: Date)
    ensures !f.Unrecognised? ==> !NotAfter(r, today)
    ensures EpochMs(d) <= EpochMs(r)
    decreases Pending(d, today)
  {
    if !NotAfter(d, today) then d
    else
      match Step(f, d)
      case None => d
      case Some(next) => Resume(f, next, today)
  }

  /** The stored definition `stored` after the inner loop for `e` from `d`:
      when a stepped definition was written back at all, the last one
      written over it, else unchanged. */
  function Rewritten(stored: Option<RecurringExpense>, e: RecurringExpense, d: Date, today: Date): Option<RecurringExpense> {
    if stored.Some? && NotAfter(d, today) && Step(e.frequency, d).Some?
    then Some(Apply(FullPatch(e.(nextOccurrence := Resume(e.frequency, d, today))), stored.value))
    else stored
  }

  /** A whole-definition write over an earlier one with the same description
      leaves what the later write alone does. */
  lemma ApplyOver(x: RecurringExpense, y: RecurringExpense, stored: RecurringExpense)
    requires x.description == y.description
    ensures Apply(FullPatch(y), Apply(FullPatch(x), stored)) == Apply(FullPatch(y), stored)
  {
    ApplyPatches(stored, x);
    ApplyPatches(Apply(FullPatch(x), stored), y);
    ApplyPatches(stored, y);
  }

  /** One write-back changes only the document with the definition's id,
      and only when it is stored. */
  lemma PutDefinitionFind(m: map<string, seq<Doc<RecurringExpense>>>, userId: string, e: RecurringExpense, k: string)
    ensures var stored := Find(DocsOf(m, userId), k);
      Find(DocsOf(PutDefinition(m, userId, e), userId), k) ==
        if k == e.id && stored.Some? then Some(Apply(FullPatch(e), stored.value)) else stored
    ensures forall u :: u != userId ==> DocsOf(PutDefinition(m, userId, e), u) == DocsOf(m, u)
  {
  }

  /** One definition's inner loop leaves its stored copy with the last
      stepped definition written over it, and every other document and
      every other user's collection as they were. */
  lemma {:induction false} ExpensePlanPersists(m: map<string, seq<Doc<RecurringExpense>>>, userId: string,
                                               e: RecurringExpense, d: Date, today: Date, uuid: nat -> string, n: nat, k: string)
    ensures var after := Persisted(m, userId, ExpensePlan(e, d, today, userId, uuid, n));
      && Find(DocsOf(after, userId), k) ==
           (if k == e.id then Rewritten(Find(DocsOf(m, userId), k), e, d, today) else Find(DocsOf(m, userId), k))
      && forall u :: u != userId ==> DocsOf(after, u) == DocsOf(m, u)
    decreases Pending(d, today)
  {
    var plan := ExpensePlan(e, d, today, userId, uuid, n);
    if !NotAfter(d, today) {
      assert plan == [];
    } else {
      var t := MakeTransaction(uuid(n), e, d, userId);
      match Step(e.frequency, d)
      case None =>
        assert plan == [] + [Materialize(t)];
        PersistedSnoc(m, userId, [], Materialize(t));
      case Some(next) =>
        var e1 := e.(nextOccurrence := next);
        var rest := ExpensePlan(e, next, today, userId, uuid, n + 1);
        var m1 := PutDefinition(m, userId, e1);
        assert plan == [Materialize(t), Persist(e1)] + rest;
        assert Persisted(m, userId, [Materialize(t), Persist(e1)]) == m1 by {
          assert [Materialize(t), Persist(e1)] == [Materialize(t)] + [Persist(e1)];
          assert [Materialize(t)] == [] + [Materialize(t)];
          PersistedSnoc(m, userId, [], Materialize(t));
          PersistedSnoc(m, userId, [Materialize(t)], Persist(e1));
        }
        PersistedAppend(m, userId, [Materialize(t), Persist(e1)], rest);
        ExpensePlanPersists(m1, userId, e, next, today, uuid, n + 1, k);
        PutDefinitionFind(m, userId, e1, k);
        var stored := Find(DocsOf(m, userId), k);
        if k == e.id && stored.Some? {
          var last := e.(nextOccurrence := Resume(e.frequency, d, today));
          assert Resume(e.frequency, d, today) == Resume(e.frequency, next, today);
          if NotAfter(next, today) && Step(e.frequency, next).Some? {
            ApplyOver(e1, last, stored.value);
          } else {
            assert last == e1;
          }
        }
    }
  }

  /** The stored copy of document `k` after the inner loops of `list`, in
      order: each definition with that id rewrites it in turn. */
  function RewrittenBy(stored: Option<RecurringExpense>, list: seq<RecurringExpense>, today: Date, k: string)
    : Option<RecurringExpense>
    decreases |list|
  {
    if list == [] then stored
    else
      var e := list[0];
      RewrittenBy(if e.id == k then Rewritten(stored, e, e.nextOccurrence, today) else stored, list[1..], today, k)
  }

  /** The whole run's write-backs leave each document as the definitions
      naming it rewrite it, and every other user's collection as it was. */
  lemma {:induction false} PlanPersists(m: map<string, seq<Doc<RecurringExpense>>>, userId: string,
                                        list: seq<RecurringExpense>, today: Date, uuid: nat -> string, n: nat, k: string)
    ensures var after := Persisted(m, userId, Plan(list, today, userId, uuid, n));
      && Find(DocsOf(after, userId), k) == RewrittenBy(Find(DocsOf(m, userId), k), list, today, k)
      && forall u :: u != userId ==> DocsOf(after, u) == DocsOf(m, u)
    decreases |list|
  {
    if list != [] {
      var e := list[0];
      var p := ExpensePlan(e, e.nextOccurrence, today, userId, uuid, n);
      var n' := n + TxCount(p);
      var rest := Plan(list[1..], today, userId, uuid, n');
      var m1 := Persisted(m, userId, p);
      PlanCons(list, today, userId, uuid, n);
      var whole := Plan(list, today, userId, uuid, n);
      assert whole == p + rest;
      PersistedAppend(m, userId, p, rest);
      assert Persisted(m, userId, whole) == Persisted(m1, userId, rest);
      ExpensePlanPersists(m, userId, e, e.nextOccurrence, today, uuid, n, k);
      PlanPersists(m1, userId, list[1..], today, uuid, n', k);
    }
  }

  /** With distinct ids a document is rewritten by the one definition naming
      it, and a document no definition names keeps its stored copy. */
  lemma {:induction false} RewrittenByDistinct(stored: Option<RecurringExpense>, list: seq<RecurringExpense>, today: Date, k: string)
    requires forall a, b :: 0 <= a < b < |list| ==> list[a].id != list[b].id
    ensures forall i :: 0 <= i < |list| && list[i].id == k ==>
      RewrittenBy(stored, list, today, k) == Rewritten(stored, list[i], list[i].nextOccurrence, today)
    ensures (forall i :: 0 <= i < |list| ==> list[i].id != k) ==> RewrittenBy(stored, list, today, k) == stored
    decreases |list|
  {
    if list != [] {
      var tail := list[1..];
      assert forall i :: 1 <= i < |list| ==> list[i] == tail[i - 1];
      var next := if list[0].id == k then Rewritten(stored, list[0], list[0].nextOccurrence, today) else stored;
      RewrittenByDistinct(next, tail, today, k);
      if list[0].id == k {
        assert forall i :: 0 <= i < |tail| ==> tail[i].id != k by {
          forall i | 0 <= i < |tail| ensures tail[i].id != k {
            assert list[i + 1] == tail[i];
          }
        }
      }
    }
  }

  lemma PlanCons(list: seq<RecurringExpense>, today: Date, userId: string, uuid: nat -> string, n: nat)
    requires list != []
    ensures Plan(list, today, userId, uuid, n) ==
      ExpensePlan(list[0], list[0].nextOccurrence, today, userId, uuid, n)
      + Plan(list[1..], today, userId, uuid, n + TxCount(ExpensePlan(list[0], list[0].nextOccurrence, today, userId, uuid, n)))
  {
  }

  /** One unfolding of the inner loop's plan while the occurrence is due. */
  lemma ExpensePlanStep(e: RecurringExpense, d: Date, today: Date, userId: string, uuid: nat -> string, n: nat)
    requires NotAfter(d, today)
    ensures var t := MakeTransaction(uuid(n), e, d, userId);
      ExpensePlan(e, d, today, userId, uuid, n) ==
        if Step(e.frequency, d).None? then [Materialize(t)]
        else [Materialize(t), Persist(e.(nextOccurrence := Step(e.frequency, d).value))]
             + ExpensePlan(e, Step(e.frequency, d).value, today, userId, uuid, n + 1)
    ensures var rest := if Step(e.frequency, d).None? then []
                        else ExpensePlan(e, Step(e.frequency, d).value, today, userId, uuid, n + 1);
      TxCount(ExpensePlan(e, d, today, userId, uuid, n)) == 1 + TxCount(rest)
  {
    var t := MakeTransaction(uuid(n), e, d, userId);
    var plan := ExpensePlan(e, d, today, userId, uuid, n);
    if Step(e.frequency, d).Some? {
      assert plan[1..][1..] == ExpensePlan(e, Step(e.frequency, d).value, today, userId, uuid, n + 1);
    } else {
      assert plan[1..] == [];
    }
  }

  lemma PrefixExtend<T>(done: seq<T>, acts: seq<T>, p: seq<T>, later: seq<T>)
    requires acts <= p
    ensures done + acts <= done + (p + later)
  {
    assert p == acts + p[|acts|..];
    assert done + (p + later) == (done + acts) + (p[|acts|..] + later);
  }

  /** How one round of the inner loop ended: a call threw, the frequency is
      unknown (the `break`), or the loop goes on from `next`. */
  datatype RoundEnd = Threw | Stopped | Continue(next: Date)

  /** One round of the inner `while` after `k` full rounds from `d0`: the
      transaction for `next`, then, for a known frequency, the stepped
      definition. `acts'` extends the actions `acts` with those whose write
      reached the store, including a write whose call then threw. */
  method Round(sync: Sync.SyncService, cache: CacheService, db: Firestore, userId: string,
               expense: RecurringExpense, today: Date, uuid: nat -> string, stamp: string,
               next: Date, n: nat, ghost acts: seq<Action>,
               ghost d0: Date, ghost n0: nat, ghost k: nat, ghost m1: map<(string, string), seq<Doc<Transaction>>>,
               ghost r1: map<string, seq<Doc<RecurringExpense>>>)
    returns (ghost acts': seq<Action>, r: RoundEnd)
    requires sync.cache == cache && sync.db == db && sync.userId == userId
    requires cache.Valid()
    requires FullRounds(expense.frequency, d0, today, k) && NotAfter(next, today)
    requires next == Stepped(expense.frequency, d0, k) && n == n0 + k
    requires acts == Rounds(expense, d0, userId, uuid, n0, k)
    requires db.transactions == Materialized(m1, userId, acts)
    requires db.recurring == Persisted(r1, userId, acts)
    modifies cache, db`budget, db`transactions, db`tokens, db`recurring
    ensures cache.Valid()
    ensures r.Threw? ==> acts' <= ExpensePlan(expense, d0, today, userId, uuid, n0)
    ensures r.Stopped? ==> acts' == ExpensePlan(expense, d0, today, userId, uuid, n0) && TxCount(acts') == k + 1
    ensures db.transactions == Materialized(m1, userId, acts')
    ensures db.recurring == Persisted(r1, userId, acts')
    ensures r.Continue? ==>
      && Step(expense.frequency, next) == Some(r.next)
      && Pending(r.next, today) < Pending(next, today)
      && FullRounds(expense.frequency, d0, today, k + 1)
      && r.next == Stepped(expense.frequency, d0, k + 1)
      && acts' == Rounds(expense, d0, userId, uuid, n0, k + 1)
  {
    var t := MakeTransaction(uuid(n), expense, next, userId);
    RoundsPrefix(expense, d0, today, userId, uuid, n0, k);
    RoundsPrefixMid(expense, d0, today, userId, uuid, n0, k);
    PersistedSnoc(r1, userId, acts, Materialize(t));
    ghost var landed := Serves(db.budget, 1);
    var ok := WriteTransaction(sync, cache, db, userId, t, stamp, m1, acts);
    acts' := if landed then acts + [Materialize(t)] else acts;
    if !ok {
      return acts', Threw;
    }
    // `{...expense, nextOccurrence}` depends on `expense` only through its
    // other fields, so the source's update of `expense.nextOccurrence` is
    // carried by `next` alone.
    var step := Step(expense.frequency, next);
    if step.None? {
      RoundsFinish(expense, d0, today, userId, uuid, n0, k);
      return acts', Stopped;
    }
    var stepped := expense.(nextOccurrence := step.value);
    PendingDrops(next, step.value, today);
    RoundStepped(expense, d0, today, userId, uuid, n0, k, step.value);
    MaterializedSnoc(m1, userId, acts', Persist(stepped));
    PersistedSnoc(r1, userId, acts', Persist(stepped));
    ghost var written := Serves(db.budget, 1);
    ok := WriteDefinition(cache, db, userId, stepped, stamp);
    if !ok {
      if written {
        acts' := acts' + [Persist(stepped)];
      }
      return acts', Threw;
    }
    acts' := acts' + [Persist(stepped)];
    r := Continue(step.value);
  }

  /** The inner `while` for one definition: `acts` are the actions whose
      write reached the store, `n` the UUID index after them; `ok` is false
      when a call threw. */
  method ProcessExpense(sync: Sync.SyncService, cache: CacheService, db: Firestore, userId: string,
                        expense: RecurringExpense, today: Date, uuid: nat -> string, stamp: string, n0: nat)
    returns (ghost acts: seq<Action>, n: nat, ok: bool)
    requires sync.cache == cache && sync.db == db && sync.userId == userId
    requires cache.Valid()
    modifies cache, db`budget, db`transactions, db`tokens, db`recurring
    ensures cache.Valid()
    ensures acts <= ExpensePlan(expense, expense.nextOccurrence, today, userId, uuid, n0)
    ensures ok ==> acts == ExpensePlan(expense, expense.nextOccurrence, today, userId, uuid, n0)
    ensures ok ==> n == n0 + TxCount(acts)
    ensures db.transactions == Materialized(old(db.transactions), userId, acts)
    ensures db.recurring == Persisted(old(db.recurring), userId, acts)
  {
    ghost var k: nat := 0;
    ghost var d0, m0, r0 := expense.nextOccurrence, db.transactions, db.recurring;
    acts, n, ok := [], n0, true;
    var next := expense.nextOccurrence;
    while NotAfter(next, today)
      invariant cache.Valid()
      invariant FullRounds(expense.frequency, d0, today, k)
      invariant next == Stepped(expense.frequency, d0, k) && n == n0 + k
      invariant acts == Rounds(expense, d0, userId, uuid, n0, k)
      invariant db.transactions == Materialized(m0, userId, acts)
      invariant db.recurring == Persisted(r0, userId, acts)
      decreases Pending(next, today)
    {
      var r;
      acts, r := Round(sync, cache, db, userId, expense, today, uuid, stamp, next, n, acts, d0, n0, k, m0, r0);
      if r.Threw? {
        ok := false;
        return;
      }
      n := n + 1;
      if r.Stopped? {
        return;
      }
      next, k := r.next, k + 1;
    }
    RoundsEnd(expense, expense.nextOccurrence, today, userId, uuid, n0, k);
  }

  /** The outer plan past position `i` once `expenses[i]`'s own plan is done. */
  lemma PlanAdvance(expenses: seq<RecurringExpense>, i: nat, today: Date, userId: string, uuid: nat -> string,
                    n: nat, done: seq<Action>, full: seq<Action>)
    requires i < |expenses| && done + Plan(expenses[i..], today, userId, uuid, n) == full
    ensures var p := ExpensePlan(expenses[i], expenses[i].nextOccurrence, today, userId, uuid, n);
      (done + p) + Plan(expenses[i + 1..], today, userId, uuid, n + TxCount(p)) == full
  {
    assert expenses[i..][1..] == expenses[i + 1..];
    PlanCons(expenses[i..], today, userId, uuid, n);
  }

  /** What one visit of the outer loop leaves: a prefix of the plan, and
      on success the rest of the plan from the next definition. */
  lemma PlanVisited(expenses: seq<RecurringExpense>, i: nat, today: Date, userId: string, uuid: nat -> string,
                    n: nat, done: seq<Action>, full: seq<Action>, acts: seq<Action>, n': nat, ok: bool)
    requires i < |expenses| && done + Plan(expenses[i..], today, userId, uuid, n) == full
    requires acts <= ExpensePlan(expenses[i], expenses[i].nextOccurrence, today, userId, uuid, n)
    requires ok ==> acts == ExpensePlan(expenses[i], expenses[i].nextOccurrence, today, userId, uuid, n)
    requires ok ==> n' == n + TxCount(acts)
    ensures done + acts <= full
    ensures ok ==> (done + acts) + Plan(expenses[i + 1..], today, userId, uuid, n') == full
  {
    PlanPrefix(expenses, i, today, userId, uuid, n, done, full, acts);
    if ok {
      PlanAdvance(expenses, i, today, userId, uuid, n, done, full);
    }
  }

  lemma PlanPrefix(expenses: seq<RecurringExpense>, i: nat, today: Date, userId: string, uuid: nat -> string,
                   n: nat, done: seq<Action>, full: seq<Action>, acts: seq<Action>)
    requires i < |expenses| && done + Plan(expenses[i..], today, userId, uuid, n) == full
    requires acts <= ExpensePlan(expenses[i], expenses[i].nextOccurrence, today, userId, uuid, n)
    ensures done + acts <= full
  {
    var p := ExpensePlan(expenses[i], expenses[i].nextOccurrence, today, userId, uuid, n);
    PlanAdvance(expenses, i, today, userId, uuid, n, done, full);
    PrefixExtend(done, acts, p, Plan(expenses[i + 1..], today, userId, uuid, n + TxCount(p)));
  }

  /** One pass of the outer `for` at `expenses[i]`: the inner loop, then
      the bookkeeping of where the run stands. */
  method Visit(sync: Sync.SyncService, cache: CacheService, db: Firestore, userId: string,
               expenses: seq<RecurringExpense>, i: nat, today: Date, uuid: nat -> string, stamp: string,
               n: nat, ghost done: seq<Action>, ghost full: seq<Action>,
               ghost m0: map<(string, string), seq<Doc<Transaction>>>, ghost r0: map<string, seq<Doc<RecurringExpense>>>)
    returns (ghost done': seq<Action>, n': nat, ok: bool)
    requires sync.cache == cache && sync.db == db && sync.userId == userId
    requires cache.Valid() && i < |expenses|
    requires done + Plan(expenses[i..], today, userId, uuid, n) == full
    requires db.transactions == Materialized(m0, userId, done)
    requires db.recurring == Persisted(r0, userId, done)
    modifies cache, db`budget, db`transactions, db`tokens, db`recurring
    ensures cache.Valid()
    ensures done' <= full
    ensures ok ==> done' + Plan(expenses[i + 1..], today, userId, uuid, n') == full
    ensures db.transactions == Materialized(m0, userId, done')
    ensures db.recurring == Persisted(r0, userId, done')
  {
    ghost var acts;
    acts, n', ok := ProcessExpense(sync, cache, db, userId, expenses[i], today, uuid, stamp, n);
    done' := done + acts;
    PlanVisited(expenses, i, today, userId, uuid, n, done, full, acts, n', ok);
    MaterializedAppend(m0, userId, done, acts);
    PersistedAppend(r0, userId, done, acts);
  }

  /** The outer `for` over the fetched list; `done` are the actions whose
      write reached the store, `completed` is false when a call threw. */
  method ProcessAll(sync: Sync.SyncService, cache: CacheService, db: Firestore, userId: string,
                    expenses: seq<RecurringExpense>, today: Date, uuid: nat -> string, stamp: string)
    returns (ghost done: seq<Action>, completed: bool)
    requires sync.cache == cache && sync.db == db && sync.userId == userId
    requires cache.Valid()
    modifies cache, db`budget, db`transactions, db`tokens, db`recurring
    ensures cache.Valid()
    ensures done <= Plan(expenses, today, userId, uuid, 0)
    ensures completed ==> done == Plan(expenses, today, userId, uuid, 0)
    ensures db.transactions == Materialized(old(db.transactions), userId, done)
    ensures db.recurring == Persisted(old(db.recurring), userId, done)
  {
    done, completed := [], true;
    ghost var full := Plan(expenses, today, userId, uuid, 0);
    ghost var m0, r0 := db.transactions, db.recurring;
    var n: nat := 0;
    var i := 0;
    while i < |expenses|
      invariant 0 <= i <= |expenses| && cache.Valid()
      invariant done + Plan(expenses[i..], today, userId, uuid, n) == full
      invariant db.transactions == Materialized(m0, userId, done)
      invariant db.recurring == Persisted(r0, userId, done)
    {
      var ok;
      done, n, ok := Visit(sync, cache, db, userId, expenses, i, today, uuid, stamp, n, done, full, m0, r0);
      if !ok {
        completed := false;
        return;
      }
      i := i + 1;
    }
    assert expenses[i..] == [];
  }

  /** `processRecurringExpenses()`. `expenses` is the list the recurring
      sync returned, `done` the actions whose write reached the store, in
      order; `completed` is false when a call failed and the `catch` ended
      the run. */
  method ProcessRecurringExpenses(sync: Sync.SyncService, cache: CacheService, db: Firestore, userId: string,
                                  today: Date, uuid: nat -> string, stamp: string)
    returns (expenses: seq<RecurringExpense>, ghost done: seq<Action>, completed: bool)
    requires sync.cache == cache && sync.db == db && sync.userId == userId
    requires cache.Valid()
    modifies cache, db`budget, db`transactions, db`tokens, db`recurring
    ensures cache.Valid()
    ensures userId == "" ==> expenses == [] && done == [] && completed
    ensures done <= Plan(expenses, today, userId, uuid, 0)
    ensures completed ==> done == Plan(expenses, today, userId, uuid, 0)
    ensures db.transactions == Materialized(old(db.transactions), userId, done)
    ensures db.recurring == Persisted(old(db.recurring), userId, done)
    ensures userId != "" && Hit(old(cache.store), false, old(db.budget), old(RecurringSync.RemoteToken(db, userId))) ==>
      expenses == old(cache.store).value.recurringExpenses.value
    ensures var b := ReloadBudget(old(cache.store), false, old(db.budget));
      userId != "" && !Hit(old(cache.store), false, old(db.budget), old(RecurringSync.RemoteToken(db, userId)))
      && (ChecksRemote(old(cache.store), false) ==> Serves(old(db.budget), 1)) && Serves(b, 2) ==>
        expenses == ActiveExpenses(old(db.RecurringDocs(userId)))
  {
    expenses, done, completed := [], [], true;
    if userId == "" {
      return;
    }
    var fetched := GetRecurringExpenses(cache, db, userId, false, stamp);
    if fetched.Err? {
      completed := false;
      return;
    }
    expenses := fetched.value;
    done, completed := ProcessAll(sync, cache, db, userId, expenses, today, uuid, stamp);
  }
}
