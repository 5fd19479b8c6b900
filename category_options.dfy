/** The category adapter (`UserCategories`,
    src/api/database/modules/subcollections/user.categories.ts): the
    category read the sync layer relies on, and the cascader options built
    from the parent pointers of the categories. */
module UserCategories {
  import opened Wrappers
  import opened Entities
  import opened Firestore

  /** `getUserCategories(userId)`: every category document of the user. */
  method GetUserCategories(db: Firestore, userId: string) returns (r: Result<seq<Category>>)
    modifies db`budget
    ensures db.budget == Spend(old(db.budget), 1)
    ensures r == if Serves(old(db.budget), 1) then Ok(Datas(db.CategoryDocs(userId))) else Err(NetworkError)
  {
    var ok := db.Request();
    if !ok {
      return Err(NetworkError);
    }
    return Ok(Datas(db.CategoryDocs(userId)));
  }

  /** `getCategoriesWithType(userId)`. Its source is not part of this model:
      it is taken to read the user's categories once and to derive the
      typed records by the function `withType`, left unspecified. */
  method GetCategoriesWithType(db: Firestore, userId: string, withType: seq<Category> -> seq<CategoryWithType>)
    returns (r: Result<seq<CategoryWithType>>)
    modifies db`budget
    ensures db.budget == Spend(old(db.budget), 1)
    ensures r == if Serves(old(db.budget), 1) then Ok(withType(Datas(db.CategoryDocs(userId)))) else Err(NetworkError)
  {
    var categories := GetUserCategories(db, userId);
    if categories.Err? {
      return Err(categories.error);
    }
    return Ok(withType(categories.value));
  }

  /** A cascader option (`Option`). */
  datatype CascaderOption = CascaderOption(text: string, value: string, children: ChildrenField)

  /** The optional `children` field: a leaf has none. */
  datatype ChildrenField = Absent | Present(options: seq<CascaderOption>)

  /** The parent a category is linked under: a falsy `parentCategoryId`
      makes it a top-level option. */
  function ParentLink(c: Category): Option<string> {
    if Truthy(c.parentCategoryId) then c.parentCategoryId else None
  }

  function IdSet(cs: seq<Category>): set<string> {
    set i | 0 <= i < |cs| :: cs[i].id
  }

  predicate UniqueCategoryIds(cs: seq<Category>) {
    forall i, j :: 0 <= i < j < |cs| ==> cs[i].id != cs[j].id
  }

  predicate Distinct(s: seq<string>) {
    forall i, j :: 0 <= i < j < |s| ==> s[i] != s[j]
  }

  /** The option texts after the first `forEach`: a later category with the
      same id replaces the node of an earlier one. */
  function Titles(cs: seq<Category>): map<string, string> {
    if cs == [] then map[] else Titles(cs[..|cs| - 1])[cs[|cs| - 1].id := cs[|cs| - 1].title]
  }

  /** The ids of the categories linked under `link`, in input order:
      `Linked(cs, None)` are the ids pushed to `categoryOptions`,
      `Linked(cs, Some(p))` those pushed to the children of `p`. */
  function Linked(cs: seq<Category>, link: Option<string>): seq<string> {
    if cs == [] then []
    else Linked(cs[..|cs| - 1], link) + (if ParentLink(cs[|cs| - 1]) == link then [cs[|cs| - 1].id] else [])
  }

  /** The `children` arrays after the second `forEach`: one per id in the
      map, holding the categories linked under it; a category whose parent
      id is not in the map is pushed nowhere. */
  function ChildLists(cs: seq<Category>): map<string, seq<string>> {
    map p | p in IdSet(cs) :: Linked(cs, Some(p))
  }

  function TextOf(texts: map<string, string>, id: string): string {
    if id in texts then texts[id] else ""
  }

  function KidsOf(kids: map<string, seq<string>>, id: string): seq<string> {
    if id in kids then kids[id] else []
  }

  /** `f` is the forest `cleanTree` makes from the nodes with ids `ids`:
      each option has the text and the id of its node, and children exactly
      when the node has some, cleaned the same way. */
  predicate Built(f: seq<CascaderOption>, texts: map<string, string>, kids: map<string, seq<string>>, ids: seq<string>)
    decreases f
  {
    |f| == |ids| &&
    forall k :: 0 <= k < |f| ==>
      && f[k].value == ids[k] && f[k].text == TextOf(texts, ids[k])
      && (f[k].children.Absent? <==> KidsOf(kids, ids[k]) == [])
      && (f[k].children.Present? ==> Built(f[k].children.options, texts, kids, KidsOf(kids, ids[k])))
  }

  /** `cleanTree(nodes)` over the nodes with ids `ids`: each node copied
      with its children cleaned, the field dropped where there are none.
      `fuel` bounds the depth of the recursion; running out stands for the
      stack overflow of a recursion that would not end. */
  function Clean(texts: map<string, string>, kids: map<string, seq<string>>, ids: seq<string>, fuel: nat)
    : (r: Result<seq<CascaderOption>>)
    ensures r.Err? ==> r.error == RangeError
    ensures r.Ok? ==> Built(r.value, texts, kids, ids)
    decreases fuel, |ids|
  {
    if ids == [] then Ok([])
    else if fuel == 0 then Err(RangeError)
    else
      var id := ids[0];
      var rest := Clean(texts, kids, ids[1..], fuel);
      var sub := if KidsOf(kids, id) == [] then Ok([]) else Clean(texts, kids, KidsOf(kids, id), fuel - 1);
      if sub.Err? then Err(sub.error)
      else if rest.Err? then Err(rest.error)
      else
        var node := CascaderOption(TextOf(texts, id), id, if KidsOf(kids, id) == [] then Absent else Present(sub.value));
        var r := [node] + rest.value;
        assert forall k :: 1 <= k < |r| ==> r[k] == rest.value[k - 1] && ids[k] == ids[1..][k - 1];
        Ok(r)
  }

  /** The options of `getCascaderCategoryOptions` for the categories `cs`.
      Every path from a top-level option has at most `|cs|` distinct ids, so
      this depth is reached only by a recursion that never ends. */
  function CascaderOptions(cs: seq<Category>): Result<seq<CascaderOption>> {
    Clean(Titles(cs), ChildLists(cs), Linked(cs, None), |cs|)
  }

  /** The first `forEach`: one node per category id. */
  method BuildNodes(cs: seq<Category>) returns (texts: map<string, string>, kids: map<string, seq<string>>)
    ensures texts == Titles(cs)
    ensures kids.Keys == IdSet(cs) && forall p :: p in kids ==> kids[p] == []
  {
    texts, kids := map[], map[];
    for i := 0 to |cs|
      invariant texts == Titles(cs[..i])
      invariant kids.Keys == IdSet(cs[..i]) && forall p :: p in kids ==> kids[p] == []
    {
      var c := cs[i];
      assert cs[..i + 1][..i] == cs[..i] && cs[..i + 1][i] == c;
      IdSetSnoc(cs, i);
      texts := texts[c.id := c.title];
      kids := kids[c.id := []];
    }
    assert cs[..|cs|] == cs;
  }

  lemma IdSetSnoc(cs: seq<Category>, i: int)
    requires 0 <= i < |cs|
    ensures IdSet(cs[..i + 1]) == IdSet(cs[..i]) + {cs[i].id}
  {
    var pre, next := cs[..i], cs[..i + 1];
    forall x | x in IdSet(next) ensures x in IdSet(pre) + {cs[i].id} {
      var j :| 0 <= j < |next| && next[j].id == x;
      if j < i { assert pre[j] == next[j]; }
    }
    forall x | x in IdSet(pre) ensures x in IdSet(next) {
      var j :| 0 <= j < |pre| && pre[j].id == x;
      assert next[j] == pre[j];
    }
    assert next[i] == cs[i];
  }

  /** One pass of the second `forEach`: the category is pushed to the top
      level, or to its parent's children when the parent is in the map. */
  method LinkOne(cs: seq<Category>, i: int, kids: map<string, seq<string>>, roots: seq<string>)
    returns (kids': map<string, seq<string>>, roots': seq<string>)
    requires 0 <= i < |cs|
    requires kids.Keys == IdSet(cs) && forall p :: p in kids ==> kids[p] == Linked(cs[..i], Some(p))
    requires roots == Linked(cs[..i], None)
    ensures kids'.Keys == IdSet(cs) && forall p :: p in kids' ==> kids'[p] == Linked(cs[..i + 1], Some(p))
    ensures roots' == Linked(cs[..i + 1], None)
  {
    var c := cs[i];
    assert cs[..i + 1][..i] == cs[..i] && cs[..i + 1][i] == c;
    kids', roots' := kids, roots;
    if !Truthy(c.parentCategoryId) {
      roots' := roots + [c.id];
    } else if c.parentCategoryId.value in kids {
      var p := c.parentCategoryId.value;
      kids' := kids[p := kids[p] + [c.id]];
    }
  }

  /** The two `forEach` loops of `getCascaderCategoryOptions`: the nodes by
      id, then the links, as the `children` arrays of the nodes and the list
      of top-level nodes. */
  method LinkHierarchy(cs: seq<Category>)
    returns (texts: map<string, string>, kids: map<string, seq<string>>, roots: seq<string>)
    ensures texts == Titles(cs) && kids == ChildLists(cs) && roots == Linked(cs, None)
  {
    texts, kids := BuildNodes(cs);
    roots := [];
    assert forall p :: p in kids ==> Linked(cs[..0], Some(p)) == [];
    for i := 0 to |cs|
      invariant kids.Keys == IdSet(cs) && forall p :: p in kids ==> kids[p] == Linked(cs[..i], Some(p))
      invariant roots == Linked(cs[..i], None)
    {
      kids, roots := LinkOne(cs, i, kids, roots);
    }
    assert cs[..|cs|] == cs;
  }

  /** `getCascaderCategoryOptions(userId)` */
  method GetCascaderCategoryOptions(db: Firestore, userId: string) returns (r: Result<seq<CascaderOption>>)
    modifies db`budget
    ensures db.budget == Spend(old(db.budget), 1)
    ensures r == if Serves(old(db.budget), 1) then CascaderOptions(Datas(db.CategoryDocs(userId))) else Err(NetworkError)
  {
    var categories := GetUserCategories(db, userId);
    if categories.Err? {
      return Err(categories.error);
    }
    var cs := categories.value;
    var texts, kids, roots := LinkHierarchy(cs);
    return Clean(texts, kids, roots, |cs|);
  }

  // ---------------------------------------------------------------------
  // What the links hold

  lemma {:induction false} LinkedMembers(cs: seq<Category>, link: Option<string>, z: string)
    ensures z in Linked(cs, link) <==> exists i :: 0 <= i < |cs| && cs[i].id == z && ParentLink(cs[i]) == link
  {
    if cs != [] {
      var init, last := cs[..|cs| - 1], cs[|cs| - 1];
      LinkedMembers(init, link, z);
      assert forall i :: 0 <= i < |init| ==> init[i] == cs[i];
      if exists i :: 0 <= i < |cs| && cs[i].id == z && ParentLink(cs[i]) == link {
        var i :| 0 <= i < |cs| && cs[i].id == z && ParentLink(cs[i]) == link;
        if i < |init| { assert init[i] == cs[i]; }
      }
    }
  }

  lemma UniquePrefix(cs: seq<Category>)
    requires UniqueCategoryIds(cs) && cs != []
    ensures UniqueCategoryIds(cs[..|cs| - 1])
    ensures forall i :: 0 <= i < |cs| - 1 ==> cs[i].id != cs[|cs| - 1].id
  {
    var init := cs[..|cs| - 1];
    assert forall i :: 0 <= i < |init| ==> init[i] == cs[i];
  }

  /** With unique ids no id is linked twice under the same parent. */
  lemma {:induction false} LinkedDistinct(cs: seq<Category>, link: Option<string>)
    requires UniqueCategoryIds(cs)
    ensures Distinct(Linked(cs, link))
  {
    if cs != [] {
      var init, last := cs[..|cs| - 1], cs[|cs| - 1];
      UniquePrefix(cs);
      LinkedDistinct(init, link);
      LinkedMembers(init, link, last.id);
      assert forall i :: 0 <= i < |init| ==> init[i] == cs[i];
      var a := Linked(init, link);
      assert last.id !in a;
      var b := a + (if ParentLink(last) == link then [last.id] else []);
      assert forall i :: 0 <= i < |a| ==> b[i] == a[i];
    }
  }

  /** The option text of an id is the title of the last category with it. */
  lemma {:induction false} TitlesLastWins(cs: seq<Category>, i: int)
    requires 0 <= i < |cs| && forall j :: i < j < |cs| ==> cs[j].id != cs[i].id
    ensures cs[i].id in Titles(cs) && Titles(cs)[cs[i].id] == cs[i].title
  {
    var init := cs[..|cs| - 1];
    if i < |cs| - 1 {
      assert forall j :: i < j < |init| ==> init[j] == cs[j];
      TitlesLastWins(init, i);
      assert init[i] == cs[i];
    }
  }

  lemma {:induction false} TitlesKeys(cs: seq<Category>)
    ensures Titles(cs).Keys == IdSet(cs)
  {
    if cs != [] {
      var init := cs[..|cs| - 1];
      TitlesKeys(init);
      IdSetSnoc(cs, |cs| - 1);
      assert cs[..|cs|] == cs;
    }
  }

  lemma {:induction false} IdSetBound(cs: seq<Category>)
    ensures |IdSet(cs)| <= |cs|
  {
    if cs != [] {
      IdSetBound(cs[..|cs| - 1]);
      IdSetSnoc(cs, |cs| - 1);
      assert cs[..|cs|] == cs;
    }
  }

  // ---------------------------------------------------------------------
  // The options as a forest

  /** Every option value, each option before its children. */
  function FlatValues(f: seq<CascaderOption>): seq<string>
    decreases f
  {
    if f == [] then []
    else [f[0].value] + (if f[0].children.Present? then FlatValues(f[0].children.options) else []) + FlatValues(f[1..])
  }

  /** One option as the categories `cs` make it: the last title of its id,
      and children exactly when some category is linked under that id, in
      the order those categories come. */
  predicate Shaped(n: CascaderOption, cs: seq<Category>) {
    && n.value in Titles(cs) && n.text == Titles(cs)[n.value]
    && (n.children.Absent? <==> Linked(cs, Some(n.value)) == [])
    && (n.children.Present? ==>
        |n.children.options| == |Linked(cs, Some(n.value))| > 0
        && forall j :: 0 <= j < |n.children.options| ==> n.children.options[j].value == Linked(cs, Some(n.value))[j])
  }

  /** Every option of the forest, at every depth, is `Shaped`. */
  predicate Faithful(f: seq<CascaderOption>, cs: seq<Category>)
    decreases f
  {
    forall k :: 0 <= k < |f| ==> Shaped(f[k], cs) && (f[k].children.Present? ==> Faithful(f[k].children.options, cs))
  }

  /** A built forest is its first tree before the rest. */
  lemma BuiltCons(f: seq<CascaderOption>, texts: map<string, string>, kids: map<string, seq<string>>, ids: seq<string>)
    requires f != [] && Built(f, texts, kids, ids)
    ensures ids != [] && f[0].value == ids[0] && Built(f[1..], texts, kids, ids[1..])
    ensures f[0].children.Absent? <==> KidsOf(kids, ids[0]) == []
    ensures f[0].children.Present? ==> Built(f[0].children.options, texts, kids, KidsOf(kids, ids[0]))
    ensures FlatValues(f) == [ids[0]] + (if f[0].children.Present? then FlatValues(f[0].children.options) else []) + FlatValues(f[1..])
  {
    assert forall k :: 0 <= k < |f[1..]| ==> f[1..][k] == f[k + 1] && ids[1..][k] == ids[k + 1];
  }

  /** The forest the links make holds every option as the categories make
      it. */
  lemma {:induction false} BuiltFaithful(cs: seq<Category>, f: seq<CascaderOption>, ids: seq<string>)
    requires forall y :: y in ids ==> y in IdSet(cs)
    requires Built(f, Titles(cs), ChildLists(cs), ids)
    ensures Faithful(f, cs)
    decreases f
  {
    if f != [] {
      var texts, kids := Titles(cs), ChildLists(cs);
      BuiltCons(f, texts, kids, ids);
      var y := ids[0];
      TitlesKeys(cs);
      assert KidsOf(kids, y) == Linked(cs, Some(y));
      BuiltFaithful(cs, f[1..], ids[1..]);
      if f[0].children.Present? {
        forall z | z in KidsOf(kids, y) ensures z in IdSet(cs) {
          LinkedMembers(cs, Some(y), z);
        }
        BuiltFaithful(cs, f[0].children.options, KidsOf(kids, y));
      }
      assert Shaped(f[0], cs);
      assert forall k :: 1 <= k < |f| ==> f[k] == f[1..][k - 1];
    }
  }

  lemma {:induction false} FlatHasTops(f: seq<CascaderOption>, k: int)
    requires 0 <= k < |f|
    ensures f[k].value in FlatValues(f)
  {
    if k > 0 {
      FlatHasTops(f[1..], k - 1);
    }
  }

  /** In a faithful forest, next to every option stand all the categories
      linked under its id. */
  lemma {:induction false} FaithfulClosed(f: seq<CascaderOption>, cs: seq<Category>, v: string, z: string)
    requires Faithful(f, cs) && v in FlatValues(f) && z in Linked(cs, Some(v))
    ensures z in FlatValues(f)
    decreases f
  {
    var n, rest := f[0], f[1..];
    assert forall k :: 0 <= k < |rest| ==> rest[k] == f[k + 1];
    assert Shaped(n, cs) && (n.children.Present? ==> Faithful(n.children.options, cs));
    assert Faithful(rest, cs);
    var sub := if n.children.Present? then FlatValues(n.children.options) else [];
    assert FlatValues(f) == [n.value] + sub + FlatValues(rest);
    if v == n.value {
      var j :| 0 <= j < |Linked(cs, Some(v))| && Linked(cs, Some(v))[j] == z;
      FlatHasTops(n.children.options, j);
    } else if v in sub {
      FaithfulClosed(n.children.options, cs, v, z);
    } else {
      FaithfulClosed(rest, cs, v, z);
    }
  }

  // ---------------------------------------------------------------------
  // Parent chains

  /** The category an id names: the first with it. */
  function FindCategory(cs: seq<Category>, x: string): Option<Category> {
    if cs == [] then None else if cs[0].id == x then Some(cs[0]) else FindCategory(cs[1..], x)
  }

  /** The id an id is linked under, if any. */
  function ParentOf(cs: seq<Category>, x: string): Option<string> {
    if FindCategory(cs, x).Some? then ParentLink(FindCategory(cs, x).value) else None
  }

  /** The id `k` links up from `x`. */
  function Ancestor(cs: seq<Category>, x: string, k: nat): Option<string>
    decreases k
  {
    if k == 0 then Some(x)
    else if ParentOf(cs, x).Some? then Ancestor(cs, ParentOf(cs, x).value, k - 1)
    else None
  }

  /** `y` is `l` links below a top-level category id, on a chain of ids of
      categories. */
  predicate AtLevel(cs: seq<Category>, y: string, l: nat)
    decreases l, 2
  {
    LevelAfter(cs, y, l, 1)
  }

  /** `AtLevel` reached after `k` further unfoldings. The indirection keeps
      the chain out of the proofs that only pass levels on; `AtLevelIs`
      states it. */
  predicate LevelAfter(cs: seq<Category>, y: string, l: nat, k: nat)
    decreases l, k
  {
    if k > 0 then LevelAfter(cs, y, l, k - 1)
    else
      y in IdSet(cs) &&
      (if l == 0 then y in Linked(cs, None)
       else ParentOf(cs, y).Some? && AtLevel(cs, ParentOf(cs, y).value, l - 1))
  }

  lemma AtLevelIs(cs: seq<Category>, y: string, l: nat)
    ensures AtLevel(cs, y, l) <==>
      (y in IdSet(cs) &&
       if l == 0 then y in Linked(cs, None)
       else ParentOf(cs, y).Some? && AtLevel(cs, ParentOf(cs, y).value, l - 1))
  {
    assert LevelAfter(cs, y, l, 1) == LevelAfter(cs, y, l, 0);
  }

  /** The parent chain of `x` reaches a top-level category. */
  ghost predicate Reaches(cs: seq<Category>, x: string) {
    exists a: nat :: Ancestor(cs, x, a).Some? && Ancestor(cs, x, a).value in Linked(cs, None)
  }

  /** `x` lies on a cycle of parent links. */
  ghost predicate OnCycle(cs: seq<Category>, x: string) {
    exists k: nat :: k > 0 && Ancestor(cs, x, k) == Some(x)
  }

  /** The children lists name, under each id, ids of categories linked
      under it, none twice. */
  ghost predicate KidsLinked(cs: seq<Category>, kids: map<string, seq<string>>) {
    && (forall y, z :: z in KidsOf(kids, y) ==> ParentOf(cs, z) == Some(y) && z in IdSet(cs))
    && (forall y :: Distinct(KidsOf(kids, y)))
  }

  lemma {:induction false} FindUnique(cs: seq<Category>, i: int)
    requires UniqueCategoryIds(cs) && 0 <= i < |cs|
    ensures FindCategory(cs, cs[i].id) == Some(cs[i])
  {
    if i > 0 {
      assert forall j, k :: 0 <= j < k < |cs[1..]| ==> cs[1..][j] == cs[j + 1] && cs[1..][k] == cs[k + 1];
      FindUnique(cs[1..], i - 1);
    }
  }

  lemma {:induction false} FindMissing(cs: seq<Category>, x: string)
    requires x !in IdSet(cs)
    ensures FindCategory(cs, x).None?
  {
    if cs != [] {
      assert cs[0].id in IdSet(cs);
      forall y | y in IdSet(cs[1..]) ensures y in IdSet(cs) {
        var j :| 0 <= j < |cs[1..]| && cs[1..][j].id == y;
        assert cs[j + 1] == cs[1..][j];
      }
      FindMissing(cs[1..], x);
    }
  }

  /** With unique ids, an id linked under `link` has `link` as its parent. */
  lemma LinkedParent(cs: seq<Category>, link: Option<string>, z: string)
    requires UniqueCategoryIds(cs) && z in Linked(cs, link)
    ensures ParentOf(cs, z) == link && z in IdSet(cs)
  {
    LinkedMembers(cs, link, z);
    var i :| 0 <= i < |cs| && cs[i].id == z && ParentLink(cs[i]) == link;
    FindUnique(cs, i);
  }

  lemma ChildListsLinked(cs: seq<Category>)
    requires UniqueCategoryIds(cs)
    ensures KidsLinked(cs, ChildLists(cs))
  {
    var kids := ChildLists(cs);
    forall y, z | z in KidsOf(kids, y) ensures ParentOf(cs, z) == Some(y) && z in IdSet(cs) {
      LinkedParent(cs, Some(y), z);
    }
    forall y ensures Distinct(KidsOf(kids, y)) {
      LinkedDistinct(cs, Some(y));
    }
  }

  lemma KidParent(cs: seq<Category>, kids: map<string, seq<string>>, y: string, z: string)
    requires KidsLinked(cs, kids) && z in KidsOf(kids, y)
    ensures ParentOf(cs, z) == Some(y) && z in IdSet(cs)
  {
  }

  /** Going up `a + b` links is going up `a`, then `b`. */
  lemma {:induction false} AncestorThen(cs: seq<Category>, x: string, a: nat, b: nat)
    ensures Ancestor(cs, x, a + b) == if Ancestor(cs, x, a).Some? then Ancestor(cs, Ancestor(cs, x, a).value, b) else None
    decreases a
  {
    if a > 0 && ParentOf(cs, x).Some? {
      AncestorThen(cs, ParentOf(cs, x).value, a - 1, b);
    }
  }

  /** The chain up from an id at level `l` holds ids of categories and
      ends, after `l` links, at a top-level id. */
  lemma {:induction false} AtLevelChain(cs: seq<Category>, y: string, l: nat)
    requires AtLevel(cs, y, l)
    ensures forall i :: 0 <= i <= l ==> Ancestor(cs, y, i).Some? && Ancestor(cs, y, i).value in IdSet(cs)
    ensures Ancestor(cs, y, l).Some? && Ancestor(cs, y, l).value in Linked(cs, None)
    decreases l
  {
    AtLevelIs(cs, y, l);
    if l > 0 {
      var p := ParentOf(cs, y).value;
      AtLevelChain(cs, p, l - 1);
      forall i | 1 <= i <= l ensures Ancestor(cs, y, i) == Ancestor(cs, p, i - 1) {
      }
    }
  }

  /** With unique ids, a chain from a top-level id ends there. */
  lemma LevelIsDepth(cs: seq<Category>, y: string, l: nat, k: nat)
    requires UniqueCategoryIds(cs) && AtLevel(cs, y, l) && Ancestor(cs, y, k).Some?
    ensures k <= l
  {
    AtLevelChain(cs, y, l);
    if k > l {
      var r := Ancestor(cs, y, l).value;
      LinkedParent(cs, None, r);
      AncestorThen(cs, y, l, k - l);
    }
  }

  /** Two ids at the same level above one id are the same id. */
  lemma LevelAncestorUnique(cs: seq<Category>, x: string, a: nat, b: nat, l: nat)
    requires UniqueCategoryIds(cs)
    requires Ancestor(cs, x, a).Some? && AtLevel(cs, Ancestor(cs, x, a).value, l)
    requires Ancestor(cs, x, b).Some? && AtLevel(cs, Ancestor(cs, x, b).value, l)
    ensures Ancestor(cs, x, a) == Ancestor(cs, x, b)
  {
    var y, y' := Ancestor(cs, x, a).value, Ancestor(cs, x, b).value;
    AtLevelChain(cs, y, l);
    AtLevelChain(cs, y', l);
    if a < b {
      AncestorThen(cs, x, a, b - a);
      AncestorThen(cs, y, b - a, l);
      LevelIsDepth(cs, y, l, b - a + l);
    } else if b < a {
      AncestorThen(cs, x, b, a - b);
      AncestorThen(cs, y', a - b, l);
      LevelIsDepth(cs, y', l, a - b + l);
    }
  }

  /** The children of an id at level `l` are at level `l + 1`. */
  lemma ChildLevel(cs: seq<Category>, y: string, l: nat, z: string)
    requires AtLevel(cs, y, l) && ParentOf(cs, z) == Some(y) && z in IdSet(cs)
    ensures AtLevel(cs, z, l + 1) && Ancestor(cs, z, 1) == Some(y)
  {
    AtLevelIs(cs, z, l + 1);
  }

  lemma KidsAtNextLevel(cs: seq<Category>, kids: map<string, seq<string>>, y: string, l: nat)
    requires KidsLinked(cs, kids) && AtLevel(cs, y, l)
    ensures forall j :: 0 <= j < |KidsOf(kids, y)| ==> AtLevel(cs, KidsOf(kids, y)[j], l + 1)
  {
    forall j | 0 <= j < |KidsOf(kids, y)| ensures AtLevel(cs, KidsOf(kids, y)[j], l + 1) {
      var z := KidsOf(kids, y)[j];
      assert z in KidsOf(kids, y);
      KidParent(cs, kids, y, z);
      ChildLevel(cs, y, l, z);
    }
  }

  /** A chain of distinct ids of categories is no longer than the list. */
  lemma {:induction false} DistinctWithin(s: seq<string>, ids: set<string>)
    requires Distinct(s) && forall i :: 0 <= i < |s| ==> s[i] in ids
    ensures |s| <= |ids|
  {
    if s != [] {
      var rest := s[1..];
      assert forall i :: 0 <= i < |rest| ==> rest[i] == s[i + 1];
      DistinctWithin(rest, ids - {s[0]});
    }
  }

  /** With unique ids, a top-level chain repeats no id, so its length is
      bounded by the number of categories. */
  lemma LevelBound(cs: seq<Category>, y: string, l: nat)
    requires UniqueCategoryIds(cs) && AtLevel(cs, y, l)
    ensures l < |cs|
  {
    AtLevelChain(cs, y, l);
    var chain := seq(l + 1, i requires 0 <= i <= l => Ancestor(cs, y, i).value);
    forall i, j | 0 <= i < j < |chain| ensures chain[i] != chain[j] {
      if chain[i] == chain[j] {
        AncestorThen(cs, y, j, l - i);
        AncestorThen(cs, y, i, l - i);
        LevelIsDepth(cs, y, l, j + l - i);
      }
    }
    DistinctWithin(chain, IdSet(cs));
    IdSetBound(cs);
  }

  /** One node is cleaned when its siblings after it and its children are. */
  lemma CleanCons(texts: map<string, string>, kids: map<string, seq<string>>, ids: seq<string>, fuel: nat)
    requires ids != [] && fuel > 0
    requires Clean(texts, kids, ids[1..], fuel).Ok?
    requires KidsOf(kids, ids[0]) == [] || Clean(texts, kids, KidsOf(kids, ids[0]), fuel - 1).Ok?
    ensures Clean(texts, kids, ids, fuel).Ok?
  {
  }

  /** With unique ids the recursion ends within the depth `cleanTree` has. */
  lemma {:induction false} CleanEnds(cs: seq<Category>, texts: map<string, string>, kids: map<string, seq<string>>, ids: seq<string>, fuel: nat, l: nat)
    requires UniqueCategoryIds(cs) && KidsLinked(cs, kids)
    requires forall k :: 0 <= k < |ids| ==> AtLevel(cs, ids[k], l)
    requires l + fuel >= |cs|
    ensures Clean(texts, kids, ids, fuel).Ok?
    decreases fuel, |ids|
  {
    if ids != [] {
      LevelBound(cs, ids[0], l);
      assert forall k :: 0 <= k < |ids[1..]| ==> ids[1..][k] == ids[k + 1];
      CleanEnds(cs, texts, kids, ids[1..], fuel, l);
      KidsEnd(cs, texts, kids, ids[0], fuel - 1, l);
      CleanCons(texts, kids, ids, fuel);
    }
  }

  /** The children of an id at level `l` are cleaned with the fuel left. */
  lemma {:induction false} KidsEnd(cs: seq<Category>, texts: map<string, string>, kids: map<string, seq<string>>, y: string, fuel: nat, l: nat)
    requires UniqueCategoryIds(cs) && KidsLinked(cs, kids) && AtLevel(cs, y, l)
    requires l + 1 + fuel >= |cs|
    ensures KidsOf(kids, y) == [] || Clean(texts, kids, KidsOf(kids, y), fuel).Ok?
    decreases fuel + 1, 0
  {
    if KidsOf(kids, y) != [] {
      KidsAtNextLevel(cs, kids, y, l);
      CleanEnds(cs, texts, kids, KidsOf(kids, y), fuel, l + 1);
    }
  }

  lemma RootsAtLevelZero(cs: seq<Category>)
    requires UniqueCategoryIds(cs)
    ensures forall y :: y in Linked(cs, None) ==> y in IdSet(cs)
    ensures forall k :: 0 <= k < |Linked(cs, None)| ==> AtLevel(cs, Linked(cs, None)[k], 0)
  {
    forall y | y in Linked(cs, None) ensures y in IdSet(cs) && AtLevel(cs, y, 0) {
      LinkedParent(cs, None, y);
      AtLevelIs(cs, y, 0);
    }
  }

  /** With unique ids `getCascaderCategoryOptions` never overflows the
      stack, its top level is the uncategorised categories' ids in input
      order, and the options are faithful to the categories. */
  lemma CascaderSucceeds(cs: seq<Category>)
    requires UniqueCategoryIds(cs)
    ensures CascaderOptions(cs).Ok?
    ensures var f := CascaderOptions(cs).value;
      && |f| == |Linked(cs, None)| && (forall k :: 0 <= k < |f| ==> f[k].value == Linked(cs, None)[k])
      && Faithful(f, cs)
  {
    RootsAtLevelZero(cs);
    ChildListsLinked(cs);
    CleanEnds(cs, Titles(cs), ChildLists(cs), Linked(cs, None), |cs|, 0);
    BuiltFaithful(cs, CascaderOptions(cs).value, Linked(cs, None));
  }

  /** Every value of a built forest lies below one of the listed ids. */
  lemma {:induction false} BuiltPlaces(cs: seq<Category>, f: seq<CascaderOption>, texts: map<string, string>,
                                       kids: map<string, seq<string>>, ids: seq<string>, x: string)
    requires KidsLinked(cs, kids) && Built(f, texts, kids, ids) && x in FlatValues(f)
    ensures exists k, a: nat :: 0 <= k < |ids| && Ancestor(cs, x, a) == Some(ids[k])
    decreases f, 1
  {
    BuiltCons(f, texts, kids, ids);
    if x == ids[0] {
      assert Ancestor(cs, x, 0) == Some(ids[0]);
    } else if f[0].children.Present? && x in FlatValues(f[0].children.options) {
      BelowFirst(cs, f, texts, kids, ids, x);
      var a: nat :| a > 0 && Ancestor(cs, x, a) == Some(ids[0]);
    } else {
      PlacedInRest(cs, f, texts, kids, ids, x);
    }
  }

  /** A value in the rest of a built forest lies below one of the other ids. */
  lemma PlacedInRest(cs: seq<Category>, f: seq<CascaderOption>, texts: map<string, string>,
                     kids: map<string, seq<string>>, ids: seq<string>, x: string)
    requires KidsLinked(cs, kids) && Built(f, texts, kids, ids) && f != [] && x in FlatValues(f[1..])
    ensures exists k, a: nat :: 0 < k < |ids| && Ancestor(cs, x, a) == Some(ids[k])
    decreases f, 0
  {
    BuiltCons(f, texts, kids, ids);
    BuiltPlaces(cs, f[1..], texts, kids, ids[1..], x);
    var k, a: nat :| 0 <= k < |ids[1..]| && Ancestor(cs, x, a) == Some(ids[1..][k]);
    assert Ancestor(cs, x, a) == Some(ids[k + 1]);
  }

  /** A value in the children of the first tree lies strictly below the
      first id. */
  lemma BelowFirst(cs: seq<Category>, f: seq<CascaderOption>, texts: map<string, string>,
                   kids: map<string, seq<string>>, ids: seq<string>, x: string)
    requires KidsLinked(cs, kids) && Built(f, texts, kids, ids) && f != []
    requires f[0].children.Present? && x in FlatValues(f[0].children.options)
    ensures exists a: nat :: a > 0 && Ancestor(cs, x, a) == Some(ids[0])
    decreases f, 0
  {
    BuiltCons(f, texts, kids, ids);
    var ks := KidsOf(kids, ids[0]);
    BuiltPlaces(cs, f[0].children.options, texts, kids, ks, x);
    var k, a: nat :| 0 <= k < |ks| && Ancestor(cs, x, a) == Some(ks[k]);
    var z := ks[k];
    assert z in ks;
    KidParent(cs, kids, ids[0], z);
    AncestorThen(cs, x, a, 1);
    assert Ancestor(cs, x, a + 1) == Some(ids[0]);
  }

  /** With unique ids an id at some level does not occur below itself. */
  lemma NotBelowItself(cs: seq<Category>, y: string, l: nat, a: nat)
    requires UniqueCategoryIds(cs) && AtLevel(cs, y, l) && a > 0
    ensures Ancestor(cs, y, a) != Some(y)
  {
    if Ancestor(cs, y, a) == Some(y) {
      AtLevelChain(cs, y, l);
      AncestorThen(cs, y, a, l);
      LevelIsDepth(cs, y, l, a + l);
    }
  }

  /** The values of the first tree of a built forest from distinct ids of
      one level are not in the rest of it. */
  lemma FirstTreeApart(cs: seq<Category>, f: seq<CascaderOption>, texts: map<string, string>,
                       kids: map<string, seq<string>>, ids: seq<string>, l: nat, x: string)
    requires UniqueCategoryIds(cs) && KidsLinked(cs, kids) && Built(f, texts, kids, ids) && f != []
    requires Distinct(ids) && forall k :: 0 <= k < |ids| ==> AtLevel(cs, ids[k], l)
    requires x == ids[0] || (f[0].children.Present? && x in FlatValues(f[0].children.options))
    ensures x !in FlatValues(f[1..])
  {
    BuiltCons(f, texts, kids, ids);
    var y := ids[0];
    var a: nat := 0;
    if x != y {
      BelowFirst(cs, f, texts, kids, ids, x);
      a :| a > 0 && Ancestor(cs, x, a) == Some(y);
    }
    assert Ancestor(cs, x, a) == Some(y);
    if x in FlatValues(f[1..]) {
      BuiltPlaces(cs, f[1..], texts, kids, ids[1..], x);
      var k, b: nat :| 0 <= k < |ids[1..]| && Ancestor(cs, x, b) == Some(ids[1..][k]);
      assert ids[1..][k] == ids[k + 1];
      LevelAncestorUnique(cs, x, a, b, l);
    }
  }

  /** An id in the children of its own tree would lie below itself. */
  lemma FirstNotBelow(cs: seq<Category>, f: seq<CascaderOption>, texts: map<string, string>,
                      kids: map<string, seq<string>>, ids: seq<string>, l: nat)
    requires UniqueCategoryIds(cs) && KidsLinked(cs, kids) && Built(f, texts, kids, ids) && f != []
    requires AtLevel(cs, ids[0], l)
    ensures f[0].children.Present? ==> ids[0] !in FlatValues(f[0].children.options)
  {
    if f[0].children.Present? && ids[0] in FlatValues(f[0].children.options) {
      BelowFirst(cs, f, texts, kids, ids, ids[0]);
      var a: nat :| a > 0 && Ancestor(cs, ids[0], a) == Some(ids[0]);
      NotBelowItself(cs, ids[0], l, a);
    }
  }

  lemma CountSplit(y: string, sub: seq<string>, rest: seq<string>, x: string)
    requires multiset(sub)[x] <= 1 && multiset(rest)[x] <= 1
    requires x == y ==> x !in sub
    requires x == y || x in sub ==> x !in rest
    ensures multiset([y] + sub + rest)[x] <= 1
  {
  }

  /** With unique ids no value occurs twice in a forest built from distinct
      ids of one level. */
  lemma {:induction false} BuiltOnce(cs: seq<Category>, f: seq<CascaderOption>, texts: map<string, string>,
                                     kids: map<string, seq<string>>, ids: seq<string>, l: nat, x: string)
    requires UniqueCategoryIds(cs) && KidsLinked(cs, kids) && Built(f, texts, kids, ids)
    requires Distinct(ids) && forall k :: 0 <= k < |ids| ==> AtLevel(cs, ids[k], l)
    ensures multiset(FlatValues(f))[x] <= 1
    decreases f
  {
    if f != [] {
      BuiltCons(f, texts, kids, ids);
      var y := ids[0];
      var sub := if f[0].children.Present? then FlatValues(f[0].children.options) else [];
      assert forall i :: 0 <= i < |ids[1..]| ==> ids[1..][i] == ids[i + 1];
      BuiltOnce(cs, f[1..], texts, kids, ids[1..], l, x);
      if f[0].children.Present? {
        KidsAtNextLevel(cs, kids, y, l);
        BuiltOnce(cs, f[0].children.options, texts, kids, KidsOf(kids, y), l + 1, x);
      }
      FirstNotBelow(cs, f, texts, kids, ids, l);
      if x == y || x in sub {
        FirstTreeApart(cs, f, texts, kids, ids, l, x);
      }
      CountSplit(y, sub, FlatValues(f[1..]), x);
    }
  }

  /** An id `a` links below a top-level category id appears. */
  lemma {:induction false} ReachedAppears(cs: seq<Category>, x: string, a: nat)
    requires UniqueCategoryIds(cs)
    requires Ancestor(cs, x, a).Some? && Ancestor(cs, x, a).value in Linked(cs, None)
    ensures CascaderOptions(cs).Ok? && x in FlatValues(CascaderOptions(cs).value)
    decreases a
  {
    CascaderSucceeds(cs);
    var f := CascaderOptions(cs).value;
    if a == 0 {
      var k :| 0 <= k < |Linked(cs, None)| && Linked(cs, None)[k] == x;
      FlatHasTops(f, k);
    } else {
      var p := ParentOf(cs, x).value;
      ReachedAppears(cs, p, a - 1);
      FindFound(cs, x);
      LinkedMembers(cs, Some(p), x);
      FaithfulClosed(f, cs, p, x);
    }
  }

  lemma {:induction false} FindFound(cs: seq<Category>, x: string)
    requires FindCategory(cs, x).Some?
    ensures FindCategory(cs, x).value.id == x && exists i :: 0 <= i < |cs| && cs[i] == FindCategory(cs, x).value
  {
    if cs[0].id != x {
      FindFound(cs[1..], x);
      var i :| 0 <= i < |cs[1..]| && cs[1..][i] == FindCategory(cs[1..], x).value;
      assert cs[i + 1] == cs[1..][i];
    }
  }

  /** With unique ids every category whose parent chain reaches a top-level
      category appears exactly once in the options, and no other category
      (one whose parent is missing, one on a cycle of parents, or one below
      either) appears at all. */
  lemma CascaderOccurrences(cs: seq<Category>, x: string)
    requires UniqueCategoryIds(cs)
    ensures CascaderOptions(cs).Ok?
    ensures multiset(FlatValues(CascaderOptions(cs).value))[x] == if Reaches(cs, x) then 1 else 0
  {
    CascaderSucceeds(cs);
    var f := CascaderOptions(cs).value;
    RootsAtLevelZero(cs);
    ChildListsLinked(cs);
    LinkedDistinct(cs, None);
    BuiltOnce(cs, f, Titles(cs), ChildLists(cs), Linked(cs, None), 0, x);
    if x in FlatValues(f) {
      BuiltPlaces(cs, f, Titles(cs), ChildLists(cs), Linked(cs, None), x);
      var k, a: nat :| 0 <= k < |Linked(cs, None)| && Ancestor(cs, x, a) == Some(Linked(cs, None)[k]);
      assert Reaches(cs, x);
    }
    if Reaches(cs, x) {
      var a: nat :| Ancestor(cs, x, a).Some? && Ancestor(cs, x, a).value in Linked(cs, None);
      ReachedAppears(cs, x, a);
    }
  }

  /** Above a category whose parent id names no category there is only
      that id, and then nothing. */
  lemma {:induction false} OrphanAncestors(cs: seq<Category>, x: string, p: string, a: nat)
    requires ParentOf(cs, x) == Some(p) && ParentOf(cs, p).None?
    ensures Ancestor(cs, x, a) == if a == 0 then Some(x) else if a == 1 then Some(p) else None
  {
    if a > 0 {
      assert Ancestor(cs, x, a) == Ancestor(cs, p, a - 1);
    }
  }

  lemma LinkedParentIf(cs: seq<Category>, link: Option<string>, z: string)
    requires UniqueCategoryIds(cs)
    ensures z in Linked(cs, link) ==> ParentOf(cs, z) == link && z in IdSet(cs)
  {
    if z in Linked(cs, link) {
      LinkedParent(cs, link, z);
    }
  }

  /** A category whose parent id names no category has no chain to a
      top-level category. */
  lemma OrphanUnreached(cs: seq<Category>, i: int)
    requires UniqueCategoryIds(cs) && 0 <= i < |cs|
    requires ParentLink(cs[i]).Some? && ParentLink(cs[i]).value !in IdSet(cs)
    ensures !Reaches(cs, cs[i].id)
  {
    var x, p := cs[i].id, ParentLink(cs[i]).value;
    FindUnique(cs, i);
    assert ParentOf(cs, x) == Some(p);
    FindMissing(cs, p);
    LinkedParentIf(cs, None, x);
    LinkedParentIf(cs, None, p);
    forall a: nat ensures !(Ancestor(cs, x, a).Some? && Ancestor(cs, x, a).value in Linked(cs, None)) {
      OrphanAncestors(cs, x, p, a);
    }
  }

  /** With unique ids a category whose parent id names no category is not
      among the options. */
  lemma OrphanOmitted(cs: seq<Category>, i: int)
    requires UniqueCategoryIds(cs) && 0 <= i < |cs|
    requires ParentLink(cs[i]).Some? && ParentLink(cs[i]).value !in IdSet(cs)
    ensures CascaderOptions(cs).Ok? && cs[i].id !in FlatValues(CascaderOptions(cs).value)
  {
    CascaderOccurrences(cs, cs[i].id);
    OrphanUnreached(cs, i);
  }

  /** Going round a cycle any number of times comes back. */
  lemma {:induction false} CycleRepeats(cs: seq<Category>, x: string, k: nat, m: nat)
    requires Ancestor(cs, x, k) == Some(x)
    ensures Ancestor(cs, x, m * k) == Some(x)
  {
    if m > 0 {
      CycleRepeats(cs, x, k, m - 1);
      AncestorThen(cs, x, (m - 1) * k, k);
      assert (m - 1) * k + k == m * k;
    }
  }

  /** With unique ids a category on a cycle of parents has no chain to a
      top-level category. */
  lemma CycleUnreached(cs: seq<Category>, x: string)
    requires UniqueCategoryIds(cs) && OnCycle(cs, x)
    ensures !Reaches(cs, x)
  {
    if Reaches(cs, x) {
      var a: nat :| Ancestor(cs, x, a).Some? && Ancestor(cs, x, a).value in Linked(cs, None);
      var k: nat :| k > 0 && Ancestor(cs, x, k) == Some(x);
      var r := Ancestor(cs, x, a).value;
      LinkedParent(cs, None, r);
      CycleRepeats(cs, x, k, a + 1);
      var n := (a + 1) * k;
      assert n >= a + 1;
      AncestorThen(cs, x, a, n - a);
    }
  }

  /** With unique ids a category on a cycle of parents is not among the
      options. */
  lemma CycleOmitted(cs: seq<Category>, x: string)
    requires UniqueCategoryIds(cs) && OnCycle(cs, x)
    ensures CascaderOptions(cs).Ok? && x !in FlatValues(CascaderOptions(cs).value)
  {
    CascaderOccurrences(cs, x);
    CycleUnreached(cs, x);
  }
}
