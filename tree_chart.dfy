/** The category tree chart (src/pages/category-tree/charts/treeChart.ts):
    one tree per built-in root category, each node standing for a category
    and holding the nodes of the categories whose parent is that category.

    The source has no guard against a cycle of parent links: a cycle that
    `buildNode` reaches from a root makes it recurse until the stack
    overflows, while a cycle it never reaches is simply not drawn. The
    model takes as a precondition that the descent from each root ends,
    witnessed by a set of ids closed under child links and holding the
    root, on which a rank strictly falls from parent to child. */
module TreeChart {
  import opened Wrappers
  import opened Entities

  /** A node of the chart's series data: `name`, `value`, the colour of its
      `itemStyle`, and `children`, a key present only when there are some. */
  datatype TreeNode = TreeNode(name: string, value: int, color: string, children: ChildrenKey)

  /** The spread `...(children.length > 0 ? {children} : {})`: a leaf has
      no `children` key at all. */
  datatype ChildrenKey = Absent | Present(nodes: seq<TreeNode>)

  /** The colour of a category without one of its own. */
  const DEFAULT_COLOR: string := "#909399"

  /** `categories.find((c) => c.id === categoryId)`: the first category with
      that id. */
  function FindById(cs: seq<Category>, id: string): (r: Option<Category>)
    ensures r.Some? ==> r.value in cs && r.value.id == id
    ensures r.None? <==> forall i :: 0 <= i < |cs| ==> cs[i].id != id
  {
    if cs == [] then None else if cs[0].id == id then Some(cs[0]) else FindById(cs[1..], id)
  }

  /** The ids of the categories whose `parentCategoryId` is strictly equal
      to `id`, in input order. */
  function ChildIds(cs: seq<Category>, id: string): (r: seq<string>)
    ensures forall x :: x in r <==> exists i :: 0 <= i < |cs| && cs[i].id == x && cs[i].parentCategoryId == Some(id)
  {
    if cs == [] then []
    else (if cs[0].parentCategoryId == Some(id) then [cs[0].id] else []) + ChildIds(cs[1..], id)
  }

  /** The set `S` holds every child of each of its ids, and `rank` falls
      strictly from an id of `S` to each of its children: descending from
      an id of `S` by child links ends. Cycles of parent links outside `S`
      are allowed. */
  predicate Ranked(cs: seq<Category>, rank: string -> nat, S: set<string>) {
    forall i :: 0 <= i < |cs| && cs[i].parentCategoryId.Some? && cs[i].parentCategoryId.value in S ==>
      cs[i].id in S && rank(cs[i].id) < rank(cs[i].parentCategoryId.value)
  }

  lemma ChildRanks(cs: seq<Category>, rank: string -> nat, S: set<string>, id: string)
    requires Ranked(cs, rank, S) && id in S
    ensures forall x :: x in ChildIds(cs, id) ==> x in S && rank(x) < rank(id)
  {
    forall x | x in ChildIds(cs, id) ensures x in S && rank(x) < rank(id) {
      var i :| 0 <= i < |cs| && cs[i].id == x && cs[i].parentCategoryId == Some(id);
    }
  }

  /** The node a category is drawn as: `value` is `budget || 1`, the colour
      `color || '#909399'`. */
  function NodeFor(c: Category, kids: seq<TreeNode>): (n: TreeNode)
    ensures n.name == c.title
    ensures n.value != 0 && (c.budget.Some? && c.budget.value != 0 ==> n.value == c.budget.value)
    ensures n.color != "" && (Truthy(c.color) ==> n.color == c.color.value)
    ensures n.children.Present? <==> kids != []
    ensures n.children.Present? ==> n.children.nodes == kids
  {
    TreeNode(
      c.title,
      if c.budget.Some? && c.budget.value != 0 then c.budget.value else 1,
      if Truthy(c.color) then c.color.value else DEFAULT_COLOR,
      if |kids| > 0 then Present(kids) else Absent)
  }

  /** `buildNode(categoryId)`: `null` when no category has the id, else the
      node of the first such category with the nodes of its children. */
  function BuildNode(cs: seq<Category>, rank: string -> nat, S: set<string>, id: string): (r: Option<TreeNode>)
    requires Ranked(cs, rank, S) && (FindById(cs, id).Some? ==> id in S)
    ensures r.None? <==> FindById(cs, id).None?
    ensures r.Some? ==> r.value.name == FindById(cs, id).value.title
    decreases rank(id), 1, 0
  {
    match FindById(cs, id)
    case None => None
    case Some(c) =>
      ChildRanks(cs, rank, S, id);
      Some(NodeFor(c, BuildAll(cs, rank, S, id, ChildIds(cs, id))))
  }

  /** `.map((child) => buildNode(child.id)).filter(Boolean)` over the child
      ids `ids` of `parent`. */
  function BuildAll(cs: seq<Category>, rank: string -> nat, S: set<string>, parent: string, ids: seq<string>): (r: seq<TreeNode>)
    requires Ranked(cs, rank, S) && forall x :: x in ids ==> x in S && rank(x) < rank(parent)
    ensures |r| <= |ids|
    decreases rank(parent), 0, |ids|
  {
    if ids == [] then []
    else
      var rest := BuildAll(cs, rank, S, parent, ids[1..]);
      match BuildNode(cs, rank, S, ids[0])
      case None => rest
      case Some(n) => [n] + rest
  }

  /** `buildCategoryTree(categories, rootId)`. */
  function BuildCategoryTree(cs: seq<Category>, rank: string -> nat, S: set<string>, rootId: string): (r: Option<TreeNode>)
    requires Ranked(cs, rank, S) && (FindById(cs, rootId).Some? ==> rootId in S)
    ensures r.None? <==> forall i :: 0 <= i < |cs| ==> cs[i].id != rootId
  {
    BuildNode(cs, rank, S, rootId)
  }

  /** The `data` of the chart's series: `BASE_CATEGORIES_ID.map(...)
      .filter(Boolean)` for the root ids `roots`. */
  function Trees(cs: seq<Category>, rank: string -> nat, S: set<string>, roots: seq<string>): (r: seq<TreeNode>)
    requires Ranked(cs, rank, S) && RootsIn(cs, S, roots)
  {
    if roots == [] then []
    else
      var rest := Trees(cs, rank, S, roots[1..]);
      match BuildCategoryTree(cs, rank, S, roots[0])
      case None => rest
      case Some(t) => [t] + rest
  }

  /** Every root id that names a category is in `S`. */
  predicate RootsIn(cs: seq<Category>, S: set<string>, roots: seq<string>) {
    forall x :: x in roots && FindById(cs, x).Some? ==> x in S
  }

  /** The series data of `generateTreeChartOptions`. */
  function GenerateTrees(cs: seq<Category>, rank: string -> nat, S: set<string>): seq<TreeNode>
    requires Ranked(cs, rank, S) && RootsIn(cs, S, BASE_CATEGORIES_ID)
  {
    Trees(cs, rank, S, BASE_CATEGORIES_ID)
  }

  /** The root ids that name some category, in their own order. */
  function PresentRoots(cs: seq<Category>, roots: seq<string>): (r: seq<string>)
    ensures forall x :: x in r <==> x in roots && FindById(cs, x).Some?
  {
    if roots == [] then []
    else (if FindById(cs, roots[0]).Some? then [roots[0]] else []) + PresentRoots(cs, roots[1..])
  }

  /** One tree per root id present, in the order of the root ids; missing
      roots are left out. */
  lemma {:induction false} TreesPerPresentRoot(cs: seq<Category>, rank: string -> nat, S: set<string>, roots: seq<string>)
    requires Ranked(cs, rank, S) && RootsIn(cs, S, roots)
    ensures var r, p := Trees(cs, rank, S, roots), PresentRoots(cs, roots);
      |r| == |p| && forall k :: 0 <= k < |r| ==> BuildCategoryTree(cs, rank, S, p[k]) == Some(r[k])
  {
    if roots != [] {
      TreesPerPresentRoot(cs, rank, S, roots[1..]);
      var r', p' := Trees(cs, rank, S, roots[1..]), PresentRoots(cs, roots[1..]);
      var t := BuildCategoryTree(cs, rank, S, roots[0]);
      assert t.Some? <==> FindById(cs, roots[0]).Some?;
      if t.Some? {
        assert Trees(cs, rank, S, roots) == [t.value] + r';
        assert PresentRoots(cs, roots) == [roots[0]] + p';
      } else {
        assert Trees(cs, rank, S, roots) == r';
        assert PresentRoots(cs, roots) == p';
      }
    }
  }

  /** The chart holds one tree for each built-in root that is present, in
      the order Expenses, Incomes, Investments. */
  lemma GeneratedTrees(cs: seq<Category>, rank: string -> nat, S: set<string>)
    requires Ranked(cs, rank, S) && RootsIn(cs, S, BASE_CATEGORIES_ID)
    ensures var r, p := GenerateTrees(cs, rank, S), PresentRoots(cs, BASE_CATEGORIES_ID);
      |r| == |p| && forall k :: 0 <= k < |r| ==> BuildCategoryTree(cs, rank, S, p[k]) == Some(r[k])
  {
    TreesPerPresentRoot(cs, rank, S, BASE_CATEGORIES_ID);
  }

  /** Nothing a child id names is ever missing, so the `filter(Boolean)`
      drops no child: the children are the nodes of the child ids, one
      each, in input order. */
  lemma {:induction false} ChildrenOfIds(cs: seq<Category>, rank: string -> nat, S: set<string>, parent: string, ids: seq<string>)
    requires Ranked(cs, rank, S) && forall x :: x in ids ==> x in S && rank(x) < rank(parent)
    requires forall x :: x in ids ==> FindById(cs, x).Some?
    ensures var r := BuildAll(cs, rank, S, parent, ids);
      |r| == |ids| && forall k :: 0 <= k < |ids| ==> BuildNode(cs, rank, S, ids[k]) == Some(r[k])
  {
    AllFoundIn(cs, ids);
    BuildAllLength(cs, rank, S, parent, ids);
    forall k | 0 <= k < |ids| ensures BuildNode(cs, rank, S, ids[k]) == Some(BuildAll(cs, rank, S, parent, ids)[k]) {
      ChildAt(cs, rank, S, parent, ids, k);
    }
  }

  /** Every id of `ids` is the id of some category. */
  predicate AllFound(cs: seq<Category>, ids: seq<string>) {
    ids == [] || (FindById(cs, ids[0]).Some? && AllFound(cs, ids[1..]))
  }

  lemma {:induction false} AllFoundIn(cs: seq<Category>, ids: seq<string>)
    requires forall x :: x in ids ==> FindById(cs, x).Some?
    ensures AllFound(cs, ids)
  {
    if ids != [] {
      assert ids[0] in ids;
      AllFoundIn(cs, ids[1..]);
    }
  }

  /** With every id present, one node per id. */
  lemma {:induction false} BuildAllLength(cs: seq<Category>, rank: string -> nat, S: set<string>, parent: string, ids: seq<string>)
    requires Ranked(cs, rank, S) && forall x :: x in ids ==> x in S && rank(x) < rank(parent)
    requires AllFound(cs, ids)
    ensures |BuildAll(cs, rank, S, parent, ids)| == |ids|
  {
    if ids != [] {
      BuildAllLength(cs, rank, S, parent, ids[1..]);
      BuildAllCons(cs, rank, S, parent, ids);
    }
  }

  /** With every id present, the `k`-th node is the node of the `k`-th id. */
  lemma {:induction false} ChildAt(cs: seq<Category>, rank: string -> nat, S: set<string>, parent: string, ids: seq<string>, k: nat)
    requires Ranked(cs, rank, S) && forall x :: x in ids ==> x in S && rank(x) < rank(parent)
    requires AllFound(cs, ids) && k < |ids|
    ensures |BuildAll(cs, rank, S, parent, ids)| == |ids|
    ensures BuildNode(cs, rank, S, ids[k]) == Some(BuildAll(cs, rank, S, parent, ids)[k])
  {
    BuildAllLength(cs, rank, S, parent, ids);
    BuildAllCons(cs, rank, S, parent, ids);
    var r, r' := BuildAll(cs, rank, S, parent, ids), BuildAll(cs, rank, S, parent, ids[1..]);
    if k > 0 {
      ChildAt(cs, rank, S, parent, ids[1..], k - 1);
      assert ids[1..][k - 1] == ids[k];
      assert r[k] == r'[k - 1];
    } else {
      assert r[0] == BuildNode(cs, rank, S, ids[0]).value;
    }
  }

  /** A present first id contributes its node ahead of the rest. */
  lemma BuildAllCons(cs: seq<Category>, rank: string -> nat, S: set<string>, parent: string, ids: seq<string>)
    requires Ranked(cs, rank, S) && forall x :: x in ids ==> x in S && rank(x) < rank(parent)
    requires ids != [] && FindById(cs, ids[0]).Some?
    ensures BuildNode(cs, rank, S, ids[0]).Some?
    ensures BuildAll(cs, rank, S, parent, ids) == [BuildNode(cs, rank, S, ids[0]).value] + BuildAll(cs, rank, S, parent, ids[1..])
  {
  }

  /** The node of a category: its name, value and colour come from the first
      category with its id; its children are the nodes of the categories
      whose parent it is, in input order, and the `children` key is there
      exactly when at least one such category exists. */
  lemma NodeShape(cs: seq<Category>, rank: string -> nat, S: set<string>, id: string)
    requires Ranked(cs, rank, S) && FindById(cs, id).Some? && id in S
    ensures forall x :: x in ChildIds(cs, id) ==> x in S
    ensures var c, n := FindById(cs, id).value, BuildNode(cs, rank, S, id).value;
      var ids := ChildIds(cs, id);
      && n.name == c.title
      && n.value != 0 && (c.budget.Some? && c.budget.value != 0 ==> n.value == c.budget.value)
      && n.color != "" && (Truthy(c.color) ==> n.color == c.color.value)
      && (n.children.Present? <==> ids != [])
      && (n.children.Present? ==>
            (|n.children.nodes| == |ids|
             && forall k :: 0 <= k < |ids| ==> BuildNode(cs, rank, S, ids[k]) == Some(n.children.nodes[k])))
  {
    var ids := ChildIds(cs, id);
    ChildRanks(cs, rank, S, id);
    forall x | x in ids ensures FindById(cs, x).Some? {
      var i :| 0 <= i < |cs| && cs[i].id == x && cs[i].parentCategoryId == Some(id);
    }
    ChildrenOfIds(cs, rank, S, id, ids);
  }

  /** The nodes of a forest, each parent before its children, depth first. */
  function FlattenAll(ts: seq<TreeNode>): seq<TreeNode>
    decreases ts
  {
    if ts == [] then []
    else
      [ts[0]] + (if ts[0].children.Present? then FlattenAll(ts[0].children.nodes) else []) + FlattenAll(ts[1..])
  }

  /** The nodes of a tree, parent before children, depth first. */
  function Flatten(t: TreeNode): (r: seq<TreeNode>)
    ensures |r| >= 1 && r[0] == t
  {
    FlattenAll([t])
  }

  lemma FlattenAllCons(ts: seq<TreeNode>)
    requires ts != []
    ensures FlattenAll(ts) == Flatten(ts[0]) + FlattenAll(ts[1..])
    ensures Flatten(ts[0]) == [ts[0]] + FlattenAll(if ts[0].children.Present? then ts[0].children.nodes else [])
  {
    var one := [ts[0]];
    assert one[0] == ts[0] && one[1..] == [];
    assert FlattenAll(one[1..]) == [];
  }

  /** The ids the tree of `id` is built from, in the order of `Flatten`. */
  function Preorder(cs: seq<Category>, rank: string -> nat, S: set<string>, id: string): seq<string>
    requires Ranked(cs, rank, S) && (FindById(cs, id).Some? ==> id in S)
    decreases rank(id), 1, 0
  {
    if FindById(cs, id).None? then []
    else
      ChildRanks(cs, rank, S, id);
      [id] + PreorderAll(cs, rank, S, id, ChildIds(cs, id))
  }

  function PreorderAll(cs: seq<Category>, rank: string -> nat, S: set<string>, parent: string, ids: seq<string>): seq<string>
    requires Ranked(cs, rank, S) && forall x :: x in ids ==> x in S && rank(x) < rank(parent)
    decreases rank(parent), 0, |ids|
  {
    if ids == [] then [] else Preorder(cs, rank, S, ids[0]) + PreorderAll(cs, rank, S, parent, ids[1..])
  }

  /** `nodes` are, one for one, the nodes built for `ids`. */
  predicate NodesOf(cs: seq<Category>, rank: string -> nat, S: set<string>, nodes: seq<TreeNode>, ids: seq<string>)
    requires Ranked(cs, rank, S)
  {
    |nodes| == |ids| && forall k :: 0 <= k < |ids| ==> ids[k] in S && BuildNode(cs, rank, S, ids[k]) == Some(nodes[k])
  }

  lemma NodesOfConcat(cs: seq<Category>, rank: string -> nat, S: set<string>, a: seq<TreeNode>, ia: seq<string>, b: seq<TreeNode>, ib: seq<string>)
    requires Ranked(cs, rank, S) && NodesOf(cs, rank, S, a, ia) && NodesOf(cs, rank, S, b, ib)
    ensures NodesOf(cs, rank, S, a + b, ia + ib)
  {
    forall k | 0 <= k < |ia + ib| ensures (ia + ib)[k] in S && BuildNode(cs, rank, S, (ia + ib)[k]) == Some((a + b)[k]) {
      if k < |ia| {
        assert (ia + ib)[k] == ia[k] && (a + b)[k] == a[k];
      } else {
        assert (ia + ib)[k] == ib[k - |ia|] && (a + b)[k] == b[k - |ia|];
      }
    }
  }

  /** Read depth first, the tree of a category is the node of each id of
      `Preorder`, in that order. */
  lemma {:induction false} FlattenIsPreorder(cs: seq<Category>, rank: string -> nat, S: set<string>, id: string)
    requires Ranked(cs, rank, S) && FindById(cs, id).Some? && id in S
    ensures NodesOf(cs, rank, S, Flatten(BuildNode(cs, rank, S, id).value), Preorder(cs, rank, S, id))
    decreases rank(id), 1, 0
  {
    var n, ids := BuildNode(cs, rank, S, id).value, ChildIds(cs, id);
    NodeShape(cs, rank, S, id);
    ChildRanks(cs, rank, S, id);
    var kids := if n.children.Present? then n.children.nodes else [];
    assert NodesOf(cs, rank, S, kids, ids);
    forall x | x in ids ensures FindById(cs, x).Some? {
      var i :| 0 <= i < |cs| && cs[i].id == x && cs[i].parentCategoryId == Some(id);
    }
    FlattenAllIsPreorder(cs, rank, S, id, kids, ids);
    FlattenAllCons([n]);
    NodesOfConcat(cs, rank, S, [n], [id], FlattenAll(kids), PreorderAll(cs, rank, S, id, ids));
  }

  lemma {:induction false} FlattenAllIsPreorder(cs: seq<Category>, rank: string -> nat, S: set<string>, parent: string,
                                                 nodes: seq<TreeNode>, ids: seq<string>)
    requires Ranked(cs, rank, S) && forall x :: x in ids ==> x in S && rank(x) < rank(parent)
    requires forall x :: x in ids ==> FindById(cs, x).Some?
    requires NodesOf(cs, rank, S, nodes, ids)
    ensures NodesOf(cs, rank, S, FlattenAll(nodes), PreorderAll(cs, rank, S, parent, ids))
    decreases rank(parent), 0, |ids|
  {
    if ids != [] {
      FlattenIsPreorder(cs, rank, S, ids[0]);
      assert NodesOf(cs, rank, S, nodes[1..], ids[1..]) by {
        assert forall k :: 0 <= k < |ids[1..]| ==> ids[1..][k] == ids[k + 1] && nodes[1..][k] == nodes[k + 1];
      }
      FlattenAllIsPreorder(cs, rank, S, parent, nodes[1..], ids[1..]);
      FlattenAllCons(nodes);
      NodesOfConcat(cs, rank, S, Flatten(nodes[0]), Preorder(cs, rank, S, ids[0]),
                    FlattenAll(nodes[1..]), PreorderAll(cs, rank, S, parent, ids[1..]));
    }
  }

  predicate UniqueCategoryIds(cs: seq<Category>) {
    forall i, j :: 0 <= i < j < |cs| ==> cs[i].id != cs[j].id
  }

  /** The parent the first category with id `x` names. */
  function ParentOf(cs: seq<Category>, x: string): Option<string> {
    if FindById(cs, x).Some? then FindById(cs, x).value.parentCategoryId else None
  }

  /** The id `k` parent links up from `x`. */
  function Ancestor(cs: seq<Category>, x: string, k: nat): Option<string>
    decreases k
  {
    if k == 0 then Some(x)
    else if ParentOf(cs, x).Some? then Ancestor(cs, ParentOf(cs, x).value, k - 1)
    else None
  }

  /** `x` is a category at or below `r`. */
  ghost predicate Descends(cs: seq<Category>, x: string, r: string) {
    FindById(cs, x).Some? && exists k: nat :: Ancestor(cs, x, k) == Some(r)
  }

  lemma {:induction false} AncestorSplit(cs: seq<Category>, x: string, a: nat, b: nat)
    ensures Ancestor(cs, x, a + b) == if Ancestor(cs, x, a).Some? then Ancestor(cs, Ancestor(cs, x, a).value, b) else None
    decreases a
  {
    if a > 0 && ParentOf(cs, x).Some? {
      AncestorSplit(cs, ParentOf(cs, x).value, a - 1, b);
    }
  }

  /** Below an id of `S` along the parent links every id is in `S`, and
      the rank strictly grows at every step up. */
  lemma {:induction false} AncestorRank(cs: seq<Category>, rank: string -> nat, S: set<string>, x: string, k: nat)
    requires Ranked(cs, rank, S) && Ancestor(cs, x, k).Some? && Ancestor(cs, x, k).value in S
    ensures x in S && rank(x) + k <= rank(Ancestor(cs, x, k).value)
    decreases k
  {
    if k > 0 {
      var p := ParentOf(cs, x).value;
      AncestorRank(cs, rank, S, p, k - 1);
      var c := FindById(cs, x).value;
      var i :| 0 <= i < |cs| && cs[i] == c;
      assert x in S && rank(x) < rank(p);
    }
  }

  lemma {:induction false} FindUnique(cs: seq<Category>, i: int)
    requires UniqueCategoryIds(cs) && 0 <= i < |cs|
    ensures FindById(cs, cs[i].id) == Some(cs[i])
  {
    if i > 0 {
      FindUnique(cs[1..], i - 1);
    }
  }

  /** With unique ids a child id's parent is the id it was listed under. */
  lemma ChildParent(cs: seq<Category>, id: string, x: string)
    requires UniqueCategoryIds(cs) && x in ChildIds(cs, id)
    ensures ParentOf(cs, x) == Some(id) && FindById(cs, x).Some?
  {
    var i :| 0 <= i < |cs| && cs[i].id == x && cs[i].parentCategoryId == Some(id);
    FindUnique(cs, i);
  }

  /** Every id of `Preorder(r)` is a category at or below `r`. */
  lemma {:induction false} PreorderBelow(cs: seq<Category>, rank: string -> nat, S: set<string>, r: string, x: string)
    requires UniqueCategoryIds(cs) && Ranked(cs, rank, S) && r in S && x in Preorder(cs, rank, S, r)
    ensures FindById(cs, x).Some? && exists k: nat :: Ancestor(cs, x, k) == Some(r)
    decreases rank(r), 1, 0
  {
    ChildRanks(cs, rank, S, r);
    if x != r {
      PreorderAllBelow(cs, rank, S, r, ChildIds(cs, r), x);
      var k: nat, y :| y in ChildIds(cs, r) && Ancestor(cs, x, k) == Some(y);
      ChildParent(cs, r, y);
      AncestorSplit(cs, x, k, 1);
      assert Ancestor(cs, x, k + 1) == Some(r);
    } else {
      assert Ancestor(cs, x, 0) == Some(r);
    }
  }

  lemma {:induction false} PreorderAllBelow(cs: seq<Category>, rank: string -> nat, S: set<string>, parent: string, ids: seq<string>, x: string)
    requires UniqueCategoryIds(cs) && Ranked(cs, rank, S) && forall z :: z in ids ==> z in S && rank(z) < rank(parent)
    requires x in PreorderAll(cs, rank, S, parent, ids)
    ensures FindById(cs, x).Some? && exists k: nat, y :: y in ids && Ancestor(cs, x, k) == Some(y)
    decreases rank(parent), 0, |ids|
  {
    if x in Preorder(cs, rank, S, ids[0]) {
      PreorderBelow(cs, rank, S, ids[0], x);
      var k: nat :| Ancestor(cs, x, k) == Some(ids[0]);
    } else {
      PreorderAllBelow(cs, rank, S, parent, ids[1..], x);
      var k: nat, y :| y in ids[1..] && Ancestor(cs, x, k) == Some(y);
    }
  }

  /** Every category at or below `r` is among the ids of `Preorder(r)`. */
  lemma {:induction false} BelowInPreorder(cs: seq<Category>, rank: string -> nat, S: set<string>, r: string, x: string, k: nat)
    requires UniqueCategoryIds(cs) && Ranked(cs, rank, S) && r in S
    requires FindById(cs, x).Some? && FindById(cs, r).Some? && Ancestor(cs, x, k) == Some(r)
    ensures x in Preorder(cs, rank, S, r)
    decreases k
  {
    if k == 0 {
      assert x == r;
    } else {
      var y, j := StepBelow(cs, rank, S, x, r, k);
      BelowInPreorder(cs, rank, S, y, x, j);
      InChildTree(cs, rank, S, r, y, x);
    }
  }

  /** The category one link below `r` on the way up from `x`. */
  lemma StepBelow(cs: seq<Category>, rank: string -> nat, S: set<string>, x: string, r: string, k: nat) returns (y: string, j: nat)
    requires Ranked(cs, rank, S) && r in S && k > 0 && Ancestor(cs, x, k) == Some(r)
    ensures j < k && Ancestor(cs, x, j) == Some(y) && y in ChildIds(cs, r) && y in S && FindById(cs, y).Some?
  {
    j := k - 1;
    AncestorSplit(cs, x, j, 1);
    y := Ancestor(cs, x, k - 1).value;
    ParentIsChildOf(cs, y, r);
    ChildRanks(cs, rank, S, r);
  }

  /** The ids of a child's tree are among the ids of its parent's tree. */
  lemma InChildTree(cs: seq<Category>, rank: string -> nat, S: set<string>, r: string, y: string, x: string)
    requires Ranked(cs, rank, S) && r in S && FindById(cs, r).Some? && y in ChildIds(cs, r)
    requires y in S && x in Preorder(cs, rank, S, y)
    ensures x in Preorder(cs, rank, S, r)
  {
    ChildRanks(cs, rank, S, r);
    InPreorderAll(cs, rank, S, r, ChildIds(cs, r), y, x);
  }

  lemma ParentIsChildOf(cs: seq<Category>, y: string, r: string)
    requires Ancestor(cs, y, 1) == Some(r)
    ensures y in ChildIds(cs, r)
  {
    assert ParentOf(cs, y) == Some(r);
    var c := FindById(cs, y).value;
    var i :| 0 <= i < |cs| && cs[i] == c;
    assert cs[i].id == y && cs[i].parentCategoryId == Some(r);
  }

  lemma {:induction false} InPreorderAll(cs: seq<Category>, rank: string -> nat, S: set<string>, parent: string, ids: seq<string>, y: string, x: string)
    requires Ranked(cs, rank, S) && forall z :: z in ids ==> z in S && rank(z) < rank(parent)
    requires y in ids && x in Preorder(cs, rank, S, y)
    ensures x in PreorderAll(cs, rank, S, parent, ids)
    decreases |ids|
  {
    if ids[0] != y {
      InPreorderAll(cs, rank, S, parent, ids[1..], y, x);
    }
  }

  predicate Distinct(s: seq<string>) {
    forall i, j :: 0 <= i < j < |s| ==> s[i] != s[j]
  }

  lemma {:induction false} ChildIdsDistinct(cs: seq<Category>, id: string)
    requires UniqueCategoryIds(cs)
    ensures Distinct(ChildIds(cs, id))
  {
    if cs != [] {
      ChildIdsDistinct(cs[1..], id);
      var rest := ChildIds(cs[1..], id);
      if cs[0].parentCategoryId == Some(id) {
        forall x | x in rest ensures x != cs[0].id {
          var i :| 0 <= i < |cs[1..]| && cs[1..][i].id == x && cs[1..][i].parentCategoryId == Some(id);
          assert cs[1..][i] == cs[i + 1];
        }
        DistinctConcat([cs[0].id], rest);
      }
    }
  }

  lemma DistinctConcat(a: seq<string>, b: seq<string>)
    requires Distinct(a) && Distinct(b) && forall x :: x in a ==> x !in b
    ensures Distinct(a + b)
  {
    forall i, j | 0 <= i < j < |a + b| ensures (a + b)[i] != (a + b)[j] {
      if j >= |a| && i < |a| {
        assert (a + b)[i] in a && (a + b)[j] in b;
      }
    }
  }

  /** Two distinct children of one parent have no category below both. */
  lemma SiblingsApart(cs: seq<Category>, rank: string -> nat, S: set<string>, r: string, a: string, b: string, x: string)
    requires UniqueCategoryIds(cs) && Ranked(cs, rank, S)
    requires a != b && a in S && b in S && ParentOf(cs, a) == Some(r) && ParentOf(cs, b) == Some(r)
    requires x in Preorder(cs, rank, S, a)
    ensures x !in Preorder(cs, rank, S, b)
  {
    if x in Preorder(cs, rank, S, b) {
      PreorderBelow(cs, rank, S, a, x);
      PreorderBelow(cs, rank, S, b, x);
      var ka: nat :| Ancestor(cs, x, ka) == Some(a);
      var kb: nat :| Ancestor(cs, x, kb) == Some(b);
      SameDepth(cs, rank, S, r, a, b, x, ka, kb);
    }
  }

  /** Two children of one category sit at the same distance above `x`
      when both are above it. */
  lemma SameDepth(cs: seq<Category>, rank: string -> nat, S: set<string>, r: string, a: string, b: string, x: string, ka: nat, kb: nat)
    requires Ranked(cs, rank, S) && a in S && b in S
    requires ParentOf(cs, a) == Some(r) && ParentOf(cs, b) == Some(r)
    requires Ancestor(cs, x, ka) == Some(a) && Ancestor(cs, x, kb) == Some(b)
    ensures ka == kb
  {
    if ka < kb {
      SiblingNotAbove(cs, rank, S, r, a, b, x, ka, kb);
    } else if kb < ka {
      SiblingNotAbove(cs, rank, S, r, b, a, x, kb, ka);
    }
  }

  /** Further up the chain from a child of `r` than that child, no other
      child of `r` is met. */
  lemma SiblingNotAbove(cs: seq<Category>, rank: string -> nat, S: set<string>, r: string, a: string, b: string, x: string, ka: nat, kb: nat)
    requires Ranked(cs, rank, S) && b in S && ka < kb
    requires ParentOf(cs, a) == Some(r) && ParentOf(cs, b) == Some(r)
    requires Ancestor(cs, x, ka) == Some(a)
    ensures Ancestor(cs, x, kb) != Some(b)
  {
    var d: nat := kb - ka - 1;
    AncestorSplit(cs, x, ka, d + 1);
    AncestorUp(cs, a, d + 1);
    AncestorUp(cs, b, 1);
    assert Ancestor(cs, b, 1) == Some(r);
    if Ancestor(cs, x, kb) == Some(b) {
      assert Ancestor(cs, r, d) == Some(b);
      AncestorRank(cs, rank, S, r, d);
    }
  }

  /** Going up `k > 0` links is going to the parent, then up `k - 1`. */
  lemma AncestorUp(cs: seq<Category>, x: string, k: nat)
    requires k > 0
    ensures Ancestor(cs, x, k) == if ParentOf(cs, x).Some? then Ancestor(cs, ParentOf(cs, x).value, k - 1) else None
  {
  }

  /** With unique ids no id occurs twice in `Preorder(r)`. */
  lemma {:induction false} PreorderDistinct(cs: seq<Category>, rank: string -> nat, S: set<string>, r: string)
    requires UniqueCategoryIds(cs) && Ranked(cs, rank, S) && r in S
    ensures Distinct(Preorder(cs, rank, S, r))
    decreases rank(r), 1, 0
  {
    if FindById(cs, r).Some? {
      var ids := ChildIds(cs, r);
      ChildRanks(cs, rank, S, r);
      ChildIdsDistinct(cs, r);
      forall y | y in ids ensures ParentOf(cs, y) == Some(r) {
        ChildParent(cs, r, y);
      }
      PreorderAllDistinct(cs, rank, S, r, ids);
      forall x | x in PreorderAll(cs, rank, S, r, ids) ensures x != r {
        PreorderAllBelow(cs, rank, S, r, ids, x);
        var k: nat, y :| y in ids && Ancestor(cs, x, k) == Some(y);
        AncestorRank(cs, rank, S, x, k);
      }
      DistinctConcat([r], PreorderAll(cs, rank, S, r, ids));
    }
  }

  lemma {:induction false} PreorderAllDistinct(cs: seq<Category>, rank: string -> nat, S: set<string>, parent: string, ids: seq<string>)
    requires UniqueCategoryIds(cs) && Ranked(cs, rank, S) && forall z :: z in ids ==> z in S && rank(z) < rank(parent)
    requires Distinct(ids) && forall z :: z in ids ==> ParentOf(cs, z) == Some(parent)
    ensures Distinct(PreorderAll(cs, rank, S, parent, ids))
    decreases rank(parent), 0, |ids|
  {
    if ids != [] {
      PreorderDistinct(cs, rank, S, ids[0]);
      assert Distinct(ids[1..]) by {
        assert forall i :: 0 <= i < |ids[1..]| ==> ids[1..][i] == ids[i + 1];
      }
      PreorderAllDistinct(cs, rank, S, parent, ids[1..]);
      forall x | x in Preorder(cs, rank, S, ids[0]) ensures x !in PreorderAll(cs, rank, S, parent, ids[1..]) {
        if x in PreorderAll(cs, rank, S, parent, ids[1..]) {
          var y := InWhichTree(cs, rank, S, parent, ids[1..], x);
          assert y != ids[0] by {
            var j :| 0 <= j < |ids[1..]| && ids[1..][j] == y;
            assert ids[j + 1] == y;
          }
          SiblingsApart(cs, rank, S, parent, ids[0], y, x);
        }
      }
      DistinctConcat(Preorder(cs, rank, S, ids[0]), PreorderAll(cs, rank, S, parent, ids[1..]));
    }
  }

  lemma {:induction false} InWhichTree(cs: seq<Category>, rank: string -> nat, S: set<string>, parent: string, ids: seq<string>, x: string)
    returns (y: string)
    requires Ranked(cs, rank, S) && forall z :: z in ids ==> z in S && rank(z) < rank(parent)
    requires x in PreorderAll(cs, rank, S, parent, ids)
    ensures y in ids && x in Preorder(cs, rank, S, y)
    decreases |ids|
  {
    if x in Preorder(cs, rank, S, ids[0]) {
      y := ids[0];
    } else {
      y := InWhichTree(cs, rank, S, parent, ids[1..], x);
    }
  }

  /** With unique ids and no parent cycle reachable from the root, the tree of a root holds,
      read depth first, exactly one node for the root and for each category
      below it, and none for any other category. */
  lemma TreeHoldsEachDescendantOnce(cs: seq<Category>, rank: string -> nat, S: set<string>, r: string, x: string)
    requires UniqueCategoryIds(cs) && Ranked(cs, rank, S) && FindById(cs, r).Some? && r in S
    ensures NodesOf(cs, rank, S, Flatten(BuildCategoryTree(cs, rank, S, r).value), Preorder(cs, rank, S, r))
    ensures multiset(Preorder(cs, rank, S, r))[x] == if Descends(cs, x, r) then 1 else 0
  {
    FlattenIsPreorder(cs, rank, S, r);
    var p := Preorder(cs, rank, S, r);
    PreorderDistinct(cs, rank, S, r);
    if x in p {
      PreorderBelow(cs, rank, S, r, x);
      DistinctOnce(p, x);
    } else if Descends(cs, x, r) {
      var k: nat :| Ancestor(cs, x, k) == Some(r);
      BelowInPreorder(cs, rank, S, r, x, k);
    }
  }

  lemma {:induction false} DistinctOnce(s: seq<string>, x: string)
    requires Distinct(s) && x in s
    ensures multiset(s)[x] == 1
  {
    if s[0] == x {
      assert x !in s[1..];
      assert s == [s[0]] + s[1..];
    } else {
      assert Distinct(s[1..]) by {
        assert forall i :: 0 <= i < |s[1..]| ==> s[1..][i] == s[i + 1];
      }
      DistinctOnce(s[1..], x);
      assert s == [s[0]] + s[1..];
    }
  }

  /** A category with the given id and parent and nothing else set. */
  function Plain(id: string, parent: Option<string>): Category {
    Category(id, id, "u", None, None, None, parent, None, true)
  }

  /** Category "a" names itself as parent, away from the root "r". */
  const Detached: seq<Category> := [Plain("r", None), Plain("a", Some("a"))]

  /** The tree of "r" is built over `Detached`, a leaf: the cycle of "a"
      is not drawn and does not stop the build. */
  lemma DetachedCycleLeftOut()
    ensures Ancestor(Detached, "a", 1) == Some("a")
    ensures Ranked(Detached, _ => 0, {"r"})
    ensures BuildCategoryTree(Detached, _ => 0, {"r"}, "r") == Some(NodeFor(Plain("r", None), []))
  {
    var cs, S := Detached, {"r"};
    assert FindById(cs, "a") == Some(cs[1]);
    assert Ranked(cs, _ => 0, S) by {
      assert "a" !in S;
    }
    assert ChildIds(cs, "r") == [];
  }
}
