/** The recurring expense adapter (`UserRecurringExpenses`,
    src/api/database/modules/subcollections/user.recurringExpenses.ts): the
    definitions of a user live in `users/{u}/recurringExpenses/{id}`. Every
    failure is rethrown as an `Error` with a fixed message. The delete, which
    also refreshes the cache through the recurring sync, is modelled with
    that sync (module RecurringSync). */
module UserRecurringExpenses {
  import opened Wrappers
  import opened Dates
  import opened Entities
  import opened Firestore

  const ADD_FAILED: string := "Failed to add recurring expense definition."
  const GET_ACTIVE_FAILED: string := "Failed to retrieve active recurring expenses."
  const GET_FAILED: string := "Failed to retrieve recurring expense definition."
  const UPDATE_FAILED: string := "Failed to update recurring expense definition."
  const DELETE_FAILED: string := "Failed to delete recurring expense definition."

  /** A definition without its id and owner: what `addRecurringExpense` is given. */
  datatype ExpenseData = ExpenseData(
    amount: int,
    categoryId: string,
    description: Option<string>,
    frequency: Frequency,
    startDate: Date,
    nextOccurrence: Date,
    isActive: bool)

  /** The fields an `updateDoc` call carries (`Partial<RecurringExpenseDefinition>`);
      None leaves a field as stored. The `id` a patch may carry equals the
      document id wherever the source updates, so it is not represented. */
  datatype ExpensePatch = ExpensePatch(
    userId: Option<string>,
    amount: Option<int>,
    categoryId: Option<string>,
    description: Option<string>,
    frequency: Option<Frequency>,
    startDate: Option<Date>,
    nextOccurrence: Option<Date>,
    isActive: Option<bool>)

  /** The patch that carries every field of `e`, as passing a whole definition does. */
  function FullPatch(e: RecurringExpense): ExpensePatch {
    ExpensePatch(Some(e.userId), Some(e.amount), Some(e.categoryId), e.description,
                 Some(e.frequency), Some(e.startDate), Some(e.nextOccurrence), Some(e.isActive))
  }

  /** The document `updateDoc(ref, patch)` leaves over `e`. */
  function Apply(p: ExpensePatch, e: RecurringExpense): (r: RecurringExpense)
    ensures r.id == e.id
    ensures p.userId.Some? ==> r.userId == p.userId.value
    ensures p.userId.None? ==> r.userId == e.userId
    ensures p.amount.Some? ==> r.amount == p.amount.value
    ensures p.amount.None? ==> r.amount == e.amount
    ensures p.categoryId.Some? ==> r.categoryId == p.categoryId.value
    ensures p.categoryId.None? ==> r.categoryId == e.categoryId
    ensures p.description.Some? ==> r.description == p.description
    ensures p.description.None? ==> r.description == e.description
    ensures p.frequency.Some? ==> r.frequency == p.frequency.value
    ensures p.frequency.None? ==> r.frequency == e.frequency
    ensures p.startDate.Some? ==> r.startDate == p.startDate.value
    ensures p.startDate.None? ==> r.startDate == e.startDate
    ensures p.nextOccurrence.Some? ==> r.nextOccurrence == p.nextOccurrence.value
    ensures p.nextOccurrence.None? ==> r.nextOccurrence == e.nextOccurrence
    ensures p.isActive.Some? ==> r.isActive == p.isActive.value
    ensures p.isActive.None? ==> r.isActive == e.isActive
  {
    RecurringExpense(
      e.id,
      p.userId.GetOr(e.userId),
      p.amount.GetOr(e.amount),
      p.categoryId.GetOr(e.categoryId),
      if p.description.Some? then p.description else e.description,
      p.frequency.GetOr(e.frequency),
      p.startDate.GetOr(e.startDate),
      p.nextOccurrence.GetOr(e.nextOccurrence),
      p.isActive.GetOr(e.isActive))
  }

  /** Writing a whole definition over a stored one yields that definition
      under the stored id, except that an absent description keeps the
      stored one; an empty patch changes nothing. */
  lemma ApplyPatches(e: RecurringExpense, x: RecurringExpense)
    ensures Apply(FullPatch(x), e) == x.(id := e.id, description := if x.description.Some? then x.description else e.description)
    ensures Apply(ExpensePatch(None, None, None, None, None, None, None, None), e) == e
  {
  }

  /** Applying the same patch twice leaves what applying it once does, and
      a later whole-definition write overrides an earlier patch entirely
      (the later write's description aside when it carries none). */
  lemma ApplyIdempotent(p: ExpensePatch, e: RecurringExpense, x: RecurringExpense)
    ensures Apply(p, Apply(p, e)) == Apply(p, e)
    ensures x.description.Some? ==> Apply(FullPatch(x), Apply(p, e)) == x.(id := e.id)
  {
  }

  /** `{id: doc.id, ...doc.data()}` */
  function WithDocId(d: Doc<RecurringExpense>): RecurringExpense {
    d.data.(id := d.id)
  }

  /** The result of the query `isActive == true`, in collection order. */
  function ActiveExpenses(docs: seq<Doc<RecurringExpense>>): seq<RecurringExpense> {
    if |docs| == 0 then []
    else (if docs[0].data.isActive then [WithDocId(docs[0])] else []) + ActiveExpenses(docs[1..])
  }

  /** The query returns exactly the active definitions, each under its document id. */
  lemma {:induction false} ActiveExpensesExactly(docs: seq<Doc<RecurringExpense>>, e: RecurringExpense)
    ensures e in ActiveExpenses(docs) <==> exists i :: 0 <= i < |docs| && docs[i].data.isActive && e == WithDocId(docs[i])
  {
    if |docs| > 0 {
      var rest := docs[1..];
      ActiveExpensesExactly(rest, e);
      if e in ActiveExpenses(rest) {
        var i :| 0 <= i < |rest| && rest[i].data.isActive && e == WithDocId(rest[i]);
        assert docs[i + 1] == rest[i];
      }
      if exists i :: 0 <= i < |docs| && docs[i].data.isActive && e == WithDocId(docs[i]) {
        var i :| 0 <= i < |docs| && docs[i].data.isActive && e == WithDocId(docs[i]);
        if i > 0 {
          assert rest[i - 1] == docs[i];
        }
      }
    }
  }

  /** Every definition the query returns carries the id of a document. */
  lemma {:induction false} ActiveExpenseIds(docs: seq<Doc<RecurringExpense>>)
    ensures forall k :: 0 <= k < |ActiveExpenses(docs)| ==> ActiveExpenses(docs)[k].id in Ids(docs)
  {
    if |docs| > 0 {
      ActiveExpenseIds(docs[1..]);
      IdsCons(docs[0], docs[1..]);
      assert docs == [docs[0]] + docs[1..];
    }
  }

  /** `list.find(e => e.id === id)` */
  function FindById(list: seq<RecurringExpense>, id: string): (r: Option<RecurringExpense>)
    ensures r.None? <==> forall k :: 0 <= k < |list| ==> list[k].id != id
    ensures r.Some? ==> r.value in list && r.value.id == id
  {
    if |list| == 0 then None
    else if list[0].id == id then Some(list[0])
    else
      var r := FindById(list[1..], id);
      assert forall k :: 1 <= k < |list| ==> list[k] == list[1..][k - 1];
      r
  }

  /** What re-reading the active list finds for `id`: its document under
      that id while it is active, nothing otherwise. */
  function Refreshed(stored: Option<RecurringExpense>, id: string): Option<RecurringExpense> {
    match stored
    case None => None
    case Some(d) => if d.isActive then Some(d.(id := id)) else None
  }

  lemma UniqueTail(docs: seq<Doc<RecurringExpense>>)
    requires |docs| > 0 && UniqueIds(docs)
    ensures UniqueIds(docs[1..]) && docs[0].id !in Ids(docs[1..])
  {
    var rest := docs[1..];
    forall i, j | 0 <= i < j < |rest| ensures rest[i].id != rest[j].id {
      assert rest[i] == docs[i + 1] && rest[j] == docs[j + 1];
    }
  }

  lemma AbsentNotFound(docs: seq<Doc<RecurringExpense>>, id: string)
    requires id !in Ids(docs)
    ensures FindById(ActiveExpenses(docs), id) == None
  {
    ActiveExpenseIds(docs);
  }

  lemma FoundAtHead(docs: seq<Doc<RecurringExpense>>, id: string)
    requires |docs| > 0 && docs[0].id == id && id !in Ids(docs[1..])
    ensures FindById(ActiveExpenses(docs), id) == Refreshed(Find(docs, id), id)
  {
    if !docs[0].data.isActive {
      AbsentNotFound(docs[1..], id);
    }
  }

  lemma SkipHead(docs: seq<Doc<RecurringExpense>>, id: string)
    requires |docs| > 0 && docs[0].id != id
    ensures FindById(ActiveExpenses(docs), id) == FindById(ActiveExpenses(docs[1..]), id)
  {
    if docs[0].data.isActive {
      var combined := [WithDocId(docs[0])] + ActiveExpenses(docs[1..]);
      assert ActiveExpenses(docs) == combined;
      assert combined[0].id != id;
      assert combined[1..] == ActiveExpenses(docs[1..]);
      assert FindById(combined, id) == FindById(combined[1..], id);
    } else {
      assert ActiveExpenses(docs) == [] + ActiveExpenses(docs[1..]) == ActiveExpenses(docs[1..]);
    }
  }

  /** Re-reading the active list finds for `id` exactly the stored
      document under that id while it is active, and nothing otherwise. */
  lemma {:induction false} FindInActive(docs: seq<Doc<RecurringExpense>>, id: string)
    requires UniqueIds(docs)
    ensures FindById(ActiveExpenses(docs), id) == Refreshed(Find(docs, id), id)
  {
    if |docs| > 0 {
      UniqueTail(docs);
      if docs[0].id == id {
        FoundAtHead(docs, id);
      } else {
        FindInActive(docs[1..], id);
        SkipHead(docs, id);
      }
    }
  }

  /** `addRecurringExpense(userId, data)`: stores the data with the owner
      and returns the new document id (`newId`, fresh as Firestore's
      generated ids are). */
  method AddRecurringExpense(db: Firestore, userId: string, data: ExpenseData, newId: string)
    returns (r: Result<string>)
    requires newId !in Ids(db.RecurringDocs(userId))
    modifies db`budget, db`recurring
    ensures db.budget == Spend(old(db.budget), 1)
    ensures r == if Serves(old(db.budget), 1) then Ok(newId) else Err(Failure(ADD_FAILED))
    ensures db.recurring == if r.Ok?
      then old(db.recurring)[userId := old(db.RecurringDocs(userId)) + [Doc(newId, RecurringExpense(newId, userId,
             data.amount, data.categoryId, data.description, data.frequency, data.startDate, data.nextOccurrence, data.isActive))]]
      else old(db.recurring)
  {
    var ok := db.Request();
    if !ok {
      return Err(Failure(ADD_FAILED));
    }
    var e := RecurringExpense(newId, userId, data.amount, data.categoryId, data.description,
                              data.frequency, data.startDate, data.nextOccurrence, data.isActive);
    db.recurring := db.recurring[userId := db.RecurringDocs(userId) + [Doc(newId, e)]];
    return Ok(newId);
  }

  /** The `forEach` over the query snapshot, pushing the active documents. */
  method CollectActive(docs: seq<Doc<RecurringExpense>>) returns (expenses: seq<RecurringExpense>)
    ensures expenses == ActiveExpenses(docs)
  {
    expenses := [];
    var rest := docs;
    while rest != []
      invariant ActiveExpenses(docs) == expenses + ActiveExpenses(rest)
    {
      var d := rest[0];
      if d.data.isActive {
        expenses := expenses + [WithDocId(d)];
      }
      rest := rest[1..];
    }
  }

  /** `getActiveRecurringExpenses(userId)` */
  method GetActiveRecurringExpenses(db: Firestore, userId: string) returns (r: Result<seq<RecurringExpense>>)
    modifies db`budget
    ensures db.budget == Spend(old(db.budget), 1)
    ensures r == if Serves(old(db.budget), 1) then Ok(ActiveExpenses(db.RecurringDocs(userId)))
                 else Err(Failure(GET_ACTIVE_FAILED))
  {
    var ok := db.Request();
    if !ok {
      return Err(Failure(GET_ACTIVE_FAILED));
    }
    var expenses := CollectActive(db.RecurringDocs(userId));
    return Ok(expenses);
  }

  /** `getRecurringExpenseById(userId, id)`: the definition, or `null` when absent. */
  method GetRecurringExpenseById(db: Firestore, userId: string, expenseId: string)
    returns (r: Result<Option<RecurringExpense>>)
    modifies db`budget
    ensures db.budget == Spend(old(db.budget), 1)
    ensures r.Err? <==> !Serves(old(db.budget), 1)
    ensures r.Err? ==> r.error == Failure(GET_FAILED)
    ensures r.Ok? ==> (r.value.None? <==> expenseId !in Ids(db.RecurringDocs(userId)))
    ensures r.Ok? && r.value.Some? ==> r.value.value == Find(db.RecurringDocs(userId), expenseId).value.(id := expenseId)
  {
    var ok := db.Request();
    if !ok {
      return Err(Failure(GET_FAILED));
    }
    var found := Find(db.RecurringDocs(userId), expenseId);
    if found.None? {
      return Ok(None);
    }
    return Ok(Some(found.value.(id := expenseId)));
  }

  /** `updateRecurringExpense(userId, id, patch)`: only the given fields of
      that one definition change; a missing document makes `updateDoc` fail. */
  method UpdateRecurringExpense(db: Firestore, userId: string, expenseId: string, patch: ExpensePatch)
    returns (r: Result<()>)
    modifies db`budget, db`recurring
    ensures db.budget == Spend(old(db.budget), 1)
    ensures var stored := Find(old(db.RecurringDocs(userId)), expenseId);
      && (r.Ok? <==> Serves(old(db.budget), 1) && stored.Some?)
      && (r.Err? ==> r.error == Failure(UPDATE_FAILED) && db.recurring == old(db.recurring))
      && (r.Ok? ==> db.recurring == old(db.recurring)[userId :=
            Put(old(db.RecurringDocs(userId)), expenseId, Apply(patch, stored.value))])
  {
    var ok := db.Request();
    var stored := Find(db.RecurringDocs(userId), expenseId);
    if !ok || stored.None? {
      return Err(Failure(UPDATE_FAILED));
    }
    db.recurring := db.recurring[userId := Put(db.RecurringDocs(userId), expenseId, Apply(patch, stored.value))];
    return Ok(());
  }
}
