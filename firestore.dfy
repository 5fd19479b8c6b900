/** The remote document store, reduced to the collections the sync layer
    touches, and the availability of the connection to it.

    A collection is a sequence of documents, each with its document id,
    kept in the order the documents were first written; a query without
    `orderBy` returns them in that order here, where Firestore itself
    returns them sorted by document id. Every awaited Firestore call
    first asks the connection whether it is still served: `budget == None`
    means every call succeeds; `budget == Some(n)` means the next `n` calls
    succeed and every later call rejects. A method that makes `n` calls
    therefore ends with `budget == Spend(old(budget), n)` whichever call
    failed, and its calls all succeeded iff `Serves(old(budget), n)`.
    Failures thus form a suffix of the calls: a transient failure followed
    by served calls is not modelled. */
module Firestore {
  import opened Wrappers
  import opened Entities

  datatype Doc<T> = Doc(id: string, data: T)

  /** The fields of a document of the `tokens` collection. */
  type Fields = map<string, string>

  predicate Serves(b: Option<nat>, n: nat) {
    b.None? || b.value >= n
  }

  function Spend(b: Option<nat>, n: nat): Option<nat> {
    match b
    case None => None
    case Some(k) => Some(if k >= n then k - n else 0)
  }

  /** Calls made in two stretches spend and are served like calls made at once. */
  lemma SpendSpend(b: Option<nat>, m: nat, n: nat)
    ensures Spend(Spend(b, m), n) == Spend(b, m + n)
    ensures n > 0 ==> (Serves(Spend(b, m), n) <==> Serves(b, m + n))
  {
  }

  /** A token document as every writer leaves it: `{token: newToken}`. */
  function TokenFields(token: string): Fields {
    map["token" := token]
  }

  function Ids<T>(docs: seq<Doc<T>>): set<string> {
    set i | 0 <= i < |docs| :: docs[i].id
  }

  lemma IdsCons<T>(d: Doc<T>, rest: seq<Doc<T>>)
    ensures Ids([d] + rest) == {d.id} + Ids(rest)
  {
    var r := [d] + rest;
    forall k | k in Ids(r) ensures k in {d.id} + Ids(rest) {
      var i :| 0 <= i < |r| && r[i].id == k;
      if i > 0 { assert rest[i - 1].id == k; }
    }
    forall k | k in Ids(rest) ensures k in Ids(r) {
      var i :| 0 <= i < |rest| && rest[i].id == k;
      assert r[i + 1].id == k;
    }
    assert r[0].id == d.id;
  }

  /** No two documents of a collection share an id. */
  predicate UniqueIds<T>(docs: seq<Doc<T>>) {
    forall i, j :: 0 <= i < j < |docs| ==> docs[i].id != docs[j].id
  }

  /** The data of every document, in collection order (`snaps.docs.map(s => s.data())`). */
  function Datas<T>(docs: seq<Doc<T>>): (r: seq<T>)
    ensures |r| == |docs| && forall i :: 0 <= i < |docs| ==> r[i] == docs[i].data
  {
    seq(|docs|, i requires 0 <= i < |docs| => docs[i].data)
  }

  /** `getDoc(...)`: the data of the document with id `id`, if there is one. */
  function Find<T>(docs: seq<Doc<T>>, id: string): (r: Option<T>)
    ensures r.None? <==> id !in Ids(docs)
    ensures r.Some? ==> Doc(id, r.value) in docs
  {
    if |docs| == 0 then None
    else if docs[0].id == id then Some(docs[0].data)
    else
      var r := Find(docs[1..], id);
      assert Ids(docs) == {docs[0].id} + Ids(docs[1..]);
      r
  }

  lemma FindCons<T>(d: Doc<T>, rest: seq<Doc<T>>, k: string)
    ensures Find([d] + rest, k) == if d.id == k then Some(d.data) else Find(rest, k)
  {
    assert ([d] + rest)[1..] == rest;
  }

  lemma UniqueIdsCons<T>(d: Doc<T>, rest: seq<Doc<T>>)
    ensures UniqueIds([d] + rest) <==> d.id !in Ids(rest) && UniqueIds(rest)
  {
    var r := [d] + rest;
    if UniqueIds(r) {
      forall i | 0 <= i < |rest| ensures rest[i].id != d.id {
        assert r[0] == d && r[i + 1] == rest[i];
      }
      forall i, j | 0 <= i < j < |rest| ensures rest[i].id != rest[j].id {
        assert r[i + 1] == rest[i] && r[j + 1] == rest[j];
      }
    }
    if d.id !in Ids(rest) && UniqueIds(rest) {
      forall i, j | 0 <= i < j < |r| ensures r[i].id != r[j].id {
        assert r[j] == rest[j - 1];
        if i > 0 {
          assert r[i] == rest[i - 1];
        }
      }
    }
  }

  /** `setDoc(ref, data)`: the document with id `id` gets `data`, in place if
      it exists, appended otherwise. */
  function Put<T>(docs: seq<Doc<T>>, id: string, data: T): (r: seq<Doc<T>>)
    ensures Ids(r) == Ids(docs) + {id}
    ensures Find(r, id) == Some(data)
    ensures forall k :: k != id ==> Find(r, k) == Find(docs, k)
  {
    if |docs| == 0 then
      IdsCons(Doc(id, data), docs);
      forall k ensures Find([Doc(id, data)] + docs, k) == if k == id then Some(data) else None {
        FindCons(Doc(id, data), docs, k);
      }
      [Doc(id, data)] + docs
    else
      var d, tail := docs[0], docs[1..];
      assert docs == [d] + tail;
      IdsCons(d, tail);
      if d.id == id then
        IdsCons(Doc(id, data), tail);
        forall k ensures Find([Doc(id, data)] + tail, k) == if k == id then Some(data) else Find(docs, k) {
          FindCons(Doc(id, data), tail, k);
          FindCons(d, tail, k);
        }
        [Doc(id, data)] + tail
      else
        var rest := Put(tail, id, data);
        IdsCons(d, rest);
        forall k ensures Find([d] + rest, k) == if k == d.id then Some(d.data) else Find(rest, k) {
          FindCons(d, rest, k);
        }
        forall k ensures Find(docs, k) == if k == d.id then Some(d.data) else Find(tail, k) {
          FindCons(d, tail, k);
        }
        [d] + rest
  }

  /** `setDoc` never creates a second document with the same id. */
  lemma {:induction false} PutKeepsUniqueIds<T>(docs: seq<Doc<T>>, id: string, data: T)
    requires UniqueIds(docs)
    ensures UniqueIds(Put(docs, id, data))
  {
    if |docs| == 0 {
      UniqueIdsCons(Doc(id, data), docs);
    } else {
      var d, tail := docs[0], docs[1..];
      assert docs == [d] + tail;
      UniqueIdsCons(d, tail);
      if d.id == id {
        UniqueIdsCons(Doc(id, data), tail);
      } else {
        PutKeepsUniqueIds(tail, id, data);
        UniqueIdsCons(d, Put(tail, id, data));
      }
    }
  }

  /** A second `setDoc` on the same id replaces what the first one wrote, in place. */
  lemma {:induction false} PutPut<T>(docs: seq<Doc<T>>, id: string, x: T, y: T)
    ensures Put(Put(docs, id, x), id, y) == Put(docs, id, y)
  {
    if |docs| > 0 && docs[0].id != id {
      var d, tail := docs[0], docs[1..];
      PutPut(tail, id, x, y);
      var once := Put(tail, id, x);
      assert Put(docs, id, x) == [d] + once;
      assert ([d] + once)[0] == d && ([d] + once)[1..] == once;
    }
  }

  /** `deleteDoc(ref)`: every document with id `id` is gone, the others keep
      their order. Deleting a missing document is not an error. */
  function Without<T>(docs: seq<Doc<T>>, id: string): (r: seq<Doc<T>>)
    ensures Ids(r) == Ids(docs) - {id}
    ensures Find(r, id) == None
    ensures forall k :: k != id ==> Find(r, k) == Find(docs, k)
    ensures UniqueIds(docs) ==> UniqueIds(r)
  {
    if |docs| == 0 then []
    else
      var d, tail := docs[0], docs[1..];
      assert docs == [d] + tail;
      var rest := Without(tail, id);
      IdsCons(d, tail);
      UniqueIdsCons(d, tail);
      forall k ensures Find(docs, k) == if k == d.id then Some(d.data) else Find(tail, k) {
        FindCons(d, tail, k);
      }
      if d.id == id then rest
      else
        IdsCons(d, rest);
        UniqueIdsCons(d, rest);
        forall k ensures Find([d] + rest, k) == if k == d.id then Some(d.data) else Find(rest, k) {
          FindCons(d, rest, k);
        }
        [d] + rest
  }

  /** `deleteDoc` keeps exactly the other documents: a document is in the
      result iff it was in the collection under another id. */
  lemma {:induction false} WithoutKeepsOthers<T>(docs: seq<Doc<T>>, id: string)
    ensures forall x :: x in Without(docs, id) <==> x in docs && x.id != id
  {
    if |docs| > 0 {
      var d, tail := docs[0], docs[1..];
      assert docs == [d] + tail;
      WithoutKeepsOthers(tail, id);
    }
  }

  class Firestore {
    /** How many more calls the connection serves; None: all of them. */
    var budget: Option<nat>
    /** `users/{user}/transactions/{year}/transactions`, by (user, year). */
    var transactions: map<(string, string), seq<Doc<Transaction>>>
    /** `users/{user}/tokens/{name}`, by (user, name). */
    var tokens: map<(string, string), Fields>
    /** `users/{user}/categories`, by user. */
    var categories: map<string, seq<Doc<Category>>>
    /** `users/{user}/recurringExpenses`, by user. */
    var recurring: map<string, seq<Doc<RecurringExpense>>>
    /** `users/{user}/reminders`, by user. */
    var reminders: map<string, seq<Doc<Reminder>>>

    /** A collection that was never written reads as empty. */
    function YearDocs(user: string, year: string): seq<Doc<Transaction>>
      reads this`transactions
    {
      if (user, year) in transactions then transactions[(user, year)] else []
    }

    function CategoryDocs(user: string): seq<Doc<Category>>
      reads this`categories
    {
      if user in categories then categories[user] else []
    }

    function RecurringDocs(user: string): seq<Doc<RecurringExpense>>
      reads this`recurring
    {
      if user in recurring then recurring[user] else []
    }

    function ReminderDocs(user: string): seq<Doc<Reminder>>
      reads this`reminders
    {
      if user in reminders then reminders[user] else []
    }

    /** The fields of a token document, if it exists. */
    function TokenDoc(user: string, name: string): Option<Fields>
      reads this`tokens
    {
      if (user, name) in tokens then Some(tokens[(user, name)]) else None
    }

    /** `tokenDoc.data()?.[field]`: the field of a token document, if both exist. */
    function TokenField(user: string, name: string, field: string): (r: Option<string>)
      reads this`tokens
      ensures r.Some? <==> (user, name) in tokens && field in tokens[(user, name)]
    {
      match TokenDoc(user, name)
      case None => None
      case Some(f) => if field in f then Some(f[field]) else None
    }

    /** One awaited Firestore call: it succeeds iff the connection still serves it. */
    method Request() returns (ok: bool)
      modifies this`budget
      ensures ok == Serves(old(budget), 1)
      ensures budget == Spend(old(budget), 1)
    {
      ok := budget.None? || budget.value >= 1;
      budget := Spend(budget, 1);
    }
  }
}
