/** Building an objective tree from its rows: a depth-first search that takes each node out
    of a shared map as it is placed. */
module Objectives {
  import opened Events

  type Id = nat

  datatype Node = Node(id: Id, parent: Option<Id>, description: string)

  datatype Tree = Tree(node: Node, children: seq<Tree>)

  // ---------- the maps the search runs on ----------

  function ById(nodes: seq<Node>): map<Id, Node> {
    if |nodes| == 0 then map[]
    else
      var last := nodes[|nodes| - 1];
      ById(nodes[..|nodes| - 1])[last.id := last]
  }

  function KidsOf(kids: map<Id, seq<Id>>, id: Id): seq<Id> {
    if id in kids then kids[id] else []
  }

  function AddKid(kids: map<Id, seq<Id>>, node: Node): map<Id, seq<Id>> {
    if node.parent.None? then kids
    else kids[node.parent.value := KidsOf(kids, node.parent.value) + [node.id]]
  }

  function ChildLists(nodes: seq<Node>): map<Id, seq<Id>> {
    if |nodes| == 0 then map[] else AddKid(ChildLists(nodes[..|nodes| - 1]), nodes[|nodes| - 1])
  }

  // ---------- the search ----------

  type Pool = map<Id, Node>

  function Build(id: Id, pool: Pool, kids: map<Id, seq<Id>>): (r: (Option<Tree>, Pool))
    ensures |r.1| <= |pool|
    decreases |pool|, 0
  {
    if id !in pool then (None, pool)
    else
      assert |pool - {id}| < |pool| by {
        assert (pool - {id}).Keys == pool.Keys - {id};
      }
      var (children, rest) := BuildAll(KidsOf(kids, id), pool - {id}, kids);
      (Some(Tree(pool[id], children)), rest)
  }

  function BuildAll(ids: seq<Id>, pool: Pool, kids: map<Id, seq<Id>>): (r: (seq<Tree>, Pool))
    ensures |r.1| <= |pool|
    decreases |pool|, |ids|
  {
    if |ids| == 0 then ([], pool)
    else
      var (tree, after) := Build(ids[0], pool, kids);
      var (trees, rest) := BuildAll(ids[1..], after, kids);
      ((if tree.Some? then [tree.value] else []) + trees, rest)
  }

  /** The mutable map of the search. */
  class Search {
    var byId: Pool

    constructor ()
      ensures byId == map[]
    {
      byId := map[];
    }

    method BuildSubtree(id: Id, kids: map<Id, seq<Id>>) returns (tree: Option<Tree>)
      modifies this
      ensures (tree, byId) == Build(id, old(byId), kids)
      decreases |byId|
    {
      if id !in byId {
        return None;
      }
      var node := byId[id];
      assert (byId - {id}).Keys == byId.Keys - {id};
      byId := byId - {id};
      ghost var pool := byId;
      var children := [];
      if id in kids {
        var ids := kids[id];
        assert ids[0..] == ids;
        for k := 0 to |ids|
          invariant |byId| <= |pool|
          invariant BuildAll(ids, pool, kids).0 == children + BuildAll(ids[k..], byId, kids).0
          invariant BuildAll(ids, pool, kids).1 == BuildAll(ids[k..], byId, kids).1
        {
          ghost var done := children;
          assert ids[k..][1..] == ids[k + 1..];
          var child := BuildSubtree(ids[k], kids);
          if child.Some? {
            children := children + [child.value];
          }
          Regroup(done, child, BuildAll(ids[k + 1..], byId, kids).0);
        }
        assert ids[|ids|..] == [] && children + [] == children;
      }
      tree := Some(Tree(node, children));
    }
  }

  lemma Regroup(done: seq<Tree>, child: Option<Tree>, trees: seq<Tree>)
    ensures done + ((if child.Some? then [child.value] else []) + trees)
        == (if child.Some? then done + [child.value] else done) + trees
  {
  }

  method BuildTree(root: Id, nodes: seq<Node>) returns (tree: Option<Tree>)
    ensures tree == Build(root, ById(nodes), ChildLists(nodes)).0
  {
    var search := new Search();
    var kids: map<Id, seq<Id>> := map[];
    for k := 0 to |nodes|
      invariant kids == ChildLists(nodes[..k])
    {
      assert nodes[..k + 1][..k] == nodes[..k];
      var node := nodes[k];
      if node.parent.Some? {
        var held := if node.parent.value in kids then kids[node.parent.value] else [];
        kids := kids[node.parent.value := held + [node.id]];
      }
    }
    assert nodes[..|nodes|] == nodes;
    for k := 0 to |nodes|
      invariant search.byId == ById(nodes[..k])
    {
      assert nodes[..k + 1][..k] == nodes[..k];
      search.byId := search.byId[nodes[k].id := nodes[k]];
    }
    tree := search.BuildSubtree(root, kids);
  }

  // ---------- what is consumed ----------

  function NodesOf(t: Tree): seq<Node>
    decreases t
  {
    [t.node] + NodesIn(t.children)
  }

  function NodesIn(trees: seq<Tree>): seq<Node>
    decreases trees
  {
    if |trees| == 0 then [] else NodesOf(trees[0]) + NodesIn(trees[1..])
  }

  predicate Kept(pool: Pool, rest: Pool) {
    forall x :: x in rest ==> x in pool && rest[x] == pool[x]
  }

  predicate Keyed(pool: Pool) {
    forall x :: x in pool ==> pool[x].id == x
  }

  /** nodes are what went from the pool to leave rest, each of them once. */
  ghost predicate Took(nodes: seq<Node>, pool: Pool, rest: Pool) {
    && Kept(pool, rest)
    && (forall n :: n in nodes ==> n.id in pool && n.id !in rest && pool[n.id] == n)
    && (forall x :: x in pool && x !in rest ==> pool[x] in nodes)
    && (forall i, j :: 0 <= i < j < |nodes| ==> nodes[i].id != nodes[j].id)
  }

  lemma TookTwice(a: seq<Node>, b: seq<Node>, pool: Pool, after: Pool, rest: Pool)
    requires Took(a, pool, after) && Took(b, after, rest)
    ensures Took(a + b, pool, rest)
  {
    forall i, j | 0 <= i < j < |a + b| ensures (a + b)[i].id != (a + b)[j].id {
      assert i < |a| ==> a[i] in a;
      assert j >= |a| ==> b[j - |a|] in b;
    }
  }

  /** However the parents are linked, in cycles too, the search ends, every node of the pool is
      either in the tree exactly once or still in the pool, and no node is altered. */
  lemma {:induction false} BuildConserves(id: Id, pool: Pool, kids: map<Id, seq<Id>>)
    requires Keyed(pool)
    ensures var r := Build(id, pool, kids);
            && (r.0.Some? <==> id in pool)
            && (r.0.Some? ==> r.0.value.node == pool[id])
            && Took(if r.0.Some? then NodesOf(r.0.value) else [], pool, r.1)
    decreases |pool|, 0
  {
    if id in pool {
      assert |pool - {id}| < |pool| by {
        assert (pool - {id}).Keys == pool.Keys - {id};
      }
      var ids := KidsOf(kids, id);
      BuildAllConserves(ids, pool - {id}, kids);
      TookTwice([pool[id]], NodesIn(BuildAll(ids, pool - {id}, kids).0), pool, pool - {id},
          BuildAll(ids, pool - {id}, kids).1);
    }
  }

  lemma {:induction false} BuildAllConserves(ids: seq<Id>, pool: Pool, kids: map<Id, seq<Id>>)
    requires Keyed(pool)
    ensures var r := BuildAll(ids, pool, kids);
            Took(NodesIn(r.0), pool, r.1)
    decreases |pool|, |ids|
  {
    if |ids| > 0 {
      BuildConserves(ids[0], pool, kids);
      var (tree, after) := Build(ids[0], pool, kids);
      BuildAllConserves(ids[1..], after, kids);
      var (trees, rest) := BuildAll(ids[1..], after, kids);
      var first := if tree.Some? then [tree.value] else [];
      var head := if tree.Some? then NodesOf(tree.value) else [];
      TookTwice(head, NodesIn(trees), pool, after, rest);
      assert NodesIn(first + trees) == head + NodesIn(trees) by {
        if tree.Some? {
          assert (first + trees)[1..] == trees;
        } else {
          assert first + trees == trees;
        }
      }
    }
  }

  // ---------- where each node goes ----------

  predicate UniqueIds(nodes: seq<Node>) {
    forall i, j :: 0 <= i < j < |nodes| ==> nodes[i].id != nodes[j].id
  }

  predicate NoRepeats(ids: seq<Id>) {
    forall i, j :: 0 <= i < j < |ids| ==> ids[i] != ids[j]
  }

  predicate IsChild(full: Pool, c: Id, n: Id) {
    c in full && full[c].parent == Some(n)
  }

  /** Child lists that say what the parent links say. */
  ghost predicate Consistent(full: Pool, kids: map<Id, seq<Id>>) {
    && Keyed(full)
    && (forall n, c :: c in KidsOf(kids, n) <==> IsChild(full, c, n))
    && (forall n :: NoRepeats(KidsOf(kids, n)))
  }

  function Without(ids: seq<Id>, root: Id): seq<Id> {
    if |ids| == 0 then [] else (if ids[0] == root then [] else [ids[0]]) + Without(ids[1..], root)
  }

  function TopIds(trees: seq<Tree>): seq<Id> {
    seq(|trees|, k requires 0 <= k < |trees| => trees[k].node.id)
  }

  /** Every node carries all its recorded children, in list order; only the root, which a
      cycle may name as somebody's child, is passed over. */
  predicate Placed(t: Tree, kids: map<Id, seq<Id>>, root: Id) {
    && TopIds(t.children) == Without(KidsOf(kids, t.node.id), root)
    && forall k :: 0 <= k < |t.children| ==> Placed(t.children[k], kids, root)
  }

  /** The children of what is in the pool are in the pool too, the root aside. */
  ghost predicate Closed(pool: Pool, full: Pool, root: Id) {
    forall n, c :: IsChild(full, c, n) && n in pool && c != root ==> c in pool
  }

  predicate Gone(x: Id, pool: Pool, rest: Pool) {
    x in pool && x !in rest
  }

  /** What went has its parent gone with it, unless it is one of tops, and its children too. */
  ghost predicate WholeFamilies(pool: Pool, rest: Pool, full: Pool, tops: seq<Id>) {
    && (forall c :: Gone(c, pool, rest) ==> c in tops || (exists n :: IsChild(full, c, n) && Gone(n, pool, rest)))
    && (forall n, c :: Gone(n, pool, rest) && IsChild(full, c, n) ==> c !in rest)
  }

  ghost predicate Ready(pool: Pool, kids: map<Id, seq<Id>>, full: Pool, root: Id) {
    Consistent(full, kids) && Kept(full, pool) && Closed(pool, full, root)
  }

  ghost predicate TreeDone(t: Tree, id: Id, pool: Pool, rest: Pool, kids: map<Id, seq<Id>>, full: Pool, root: Id) {
    && t.node.id == id && Placed(t, kids, root)
    && Ready(rest, kids, full, root) && Kept(pool, rest) && id !in rest
    && WholeFamilies(pool, rest, full, [id])
  }

  ghost predicate ForestDone(trees: seq<Tree>, ids: seq<Id>, pool: Pool, rest: Pool, kids: map<Id, seq<Id>>,
      full: Pool, root: Id) {
    && TopIds(trees) == Without(ids, root)
    && (forall k :: 0 <= k < |trees| ==> Placed(trees[k], kids, root))
    && Ready(rest, kids, full, root) && Kept(pool, rest)
    && (forall c :: c in ids ==> c !in rest)
    && WholeFamilies(pool, rest, full, ids)
  }

  lemma SkipRoot(trees: seq<Tree>, ids: seq<Id>, pool: Pool, rest: Pool, kids: map<Id, seq<Id>>, full: Pool, root: Id)
    requires |ids| > 0 && ids[0] == root && root !in pool
    requires ForestDone(trees, ids[1..], pool, rest, kids, full, root)
    ensures ForestDone(trees, ids, pool, rest, kids, full, root)
  {
    assert ids == [ids[0]] + ids[1..];
  }

  lemma AddTree(t: Tree, trees: seq<Tree>, ids: seq<Id>, pool: Pool, after: Pool, rest: Pool, kids: map<Id, seq<Id>>,
      full: Pool, root: Id)
    requires |ids| > 0 && ids[0] != root
    requires TreeDone(t, ids[0], pool, after, kids, full, root)
    requires ForestDone(trees, ids[1..], after, rest, kids, full, root)
    ensures ForestDone([t] + trees, ids, pool, rest, kids, full, root)
  {
    assert ids == [ids[0]] + ids[1..];
    TopIdsCons(t, trees);
    FamiliesTwice(ids, pool, after, rest, full);
  }

  lemma {:induction false} BuildPlaces(id: Id, pool: Pool, kids: map<Id, seq<Id>>, full: Pool, root: Id)
    requires Ready(pool, kids, full, root) && id in pool
    requires id == root || (root !in pool && exists n :: IsChild(full, id, n) && n !in pool)
    ensures var r := Build(id, pool, kids);
            r.0.Some? && TreeDone(r.0.value, id, pool, r.1, kids, full, root)
    decreases |pool|, 0
  {
    var without := pool - {id};
    assert |without| < |pool| by {
      assert without.Keys == pool.Keys - {id};
    }
    var ids := KidsOf(kids, id);
    assert forall c :: c in ids ==> IsChild(full, c, id);
    BuildAllPlaces(ids, without, kids, full, root, id);
    var (children, rest) := BuildAll(ids, without, kids);
    WholeFamily(id, ids, pool, rest, full);
  }

  /** A node's family is its children's families and itself. */
  lemma WholeFamily(id: Id, ids: seq<Id>, pool: Pool, rest: Pool, full: Pool)
    requires id in pool && id !in rest
    requires forall c :: c in ids <==> IsChild(full, c, id)
    requires forall c :: c in ids ==> c !in rest
    requires WholeFamilies(pool - {id}, rest, full, ids)
    ensures WholeFamilies(pool, rest, full, [id])
  {
    var without := pool - {id};
    forall c | Gone(c, pool, rest) && c != id ensures exists n :: IsChild(full, c, n) && Gone(n, pool, rest) {
      assert Gone(c, without, rest);
      if c in ids {
        assert IsChild(full, c, id) && Gone(id, pool, rest);
      } else {
        var n :| IsChild(full, c, n) && Gone(n, without, rest);
        assert Gone(n, pool, rest);
      }
    }
    forall n, c | Gone(n, pool, rest) && IsChild(full, c, n) ensures c !in rest {
      if n != id {
        assert Gone(n, without, rest);
      }
    }
  }

  lemma {:induction false} BuildAllPlaces(ids: seq<Id>, pool: Pool, kids: map<Id, seq<Id>>, full: Pool, root: Id, n: Id)
    requires Ready(pool, kids, full, root) && root !in pool && n !in pool
    requires NoRepeats(ids)
    requires forall c :: c in ids ==> IsChild(full, c, n) && (c == root || c in pool)
    ensures var r := BuildAll(ids, pool, kids);
            ForestDone(r.0, ids, pool, r.1, kids, full, root)
    decreases |pool|, |ids|
  {
    if |ids| > 0 {
      var (tree, after) := Build(ids[0], pool, kids);
      var (trees, rest) := BuildAll(ids[1..], after, kids);
      if ids[0] == root {
        BuildAllPlaces(ids[1..], pool, kids, full, root, n);
        assert [] + trees == trees;
        SkipRoot(trees, ids, pool, rest, kids, full, root);
      } else {
        BuildPlaces(ids[0], pool, kids, full, root);
        SiblingsStay(ids, pool, after, full, n);
        BuildAllPlaces(ids[1..], after, kids, full, root, n);
        AddTree(tree.value, trees, ids, pool, after, rest, kids, full, root);
      }
    }
  }

  lemma TopIdsCons(tree: Tree, trees: seq<Tree>)
    ensures TopIds([tree] + trees) == [tree.node.id] + TopIds(trees)
  {
  }

  lemma SiblingsStay(ids: seq<Id>, pool: Pool, after: Pool, full: Pool, n: Id)
    requires |ids| > 0 && NoRepeats(ids) && n !in pool
    requires WholeFamilies(pool, after, full, [ids[0]])
    requires forall c :: c in ids ==> IsChild(full, c, n)
    ensures forall c :: c in ids[1..] && c in pool ==> c in after
  {
    forall c | c in ids[1..] && c in pool ensures c in after {
      var i :| 0 <= i < |ids[1..]| && ids[1..][i] == c;
      assert ids[i + 1] == c && c != ids[0];
      assert IsChild(full, c, n);
      assert Gone(c, pool, after) == (c !in after);
    }
  }

  lemma FamiliesTwice(ids: seq<Id>, pool: Pool, after: Pool, rest: Pool, full: Pool)
    requires |ids| > 0
    requires Kept(pool, after) && Kept(after, rest)
    requires WholeFamilies(pool, after, full, [ids[0]]) && WholeFamilies(after, rest, full, ids[1..])
    ensures WholeFamilies(pool, rest, full, ids)
  {
    forall c | Gone(c, pool, rest) && c !in ids ensures exists n :: IsChild(full, c, n) && Gone(n, pool, rest) {
      if c in after {
        assert Gone(c, after, rest);
        var n :| IsChild(full, c, n) && Gone(n, after, rest);
        assert Gone(n, pool, rest);
      } else {
        assert Gone(c, pool, after);
        var n :| IsChild(full, c, n) && Gone(n, pool, after);
        assert Gone(n, pool, rest);
      }
    }
    forall n, c | Gone(n, pool, rest) && IsChild(full, c, n) ensures c !in rest {
      if n in after {
        assert Gone(n, after, rest);
      } else {
        assert Gone(n, pool, after);
      }
    }
  }

  // ---------- reachability ----------

  /** x comes to root by at most k steps up its parent links, inside the rows. */
  predicate Climbs(full: Pool, root: Id, x: Id, k: nat)
    decreases k
  {
    && x in full
    && (x == root || (k > 0 && full[x].parent.Some? && Climbs(full, root, full[x].parent.value, k - 1)))
  }

  ghost predicate Reachable(full: Pool, root: Id, x: Id) {
    exists k: nat :: Climbs(full, root, x, k)
  }

  lemma {:induction false} ClimbFurther(full: Pool, root: Id, above: Id, x: Id, k: nat)
    requires Climbs(full, root, x, k) && IsChild(full, root, above) && above in full
    ensures Reachable(full, above, x)
    decreases k
  {
    if x == root {
      assert Climbs(full, above, above, 0);
      assert Climbs(full, above, x, 1);
    } else if x == above {
      assert Climbs(full, above, x, 0);
    } else {
      ClimbFurther(full, root, above, full[x].parent.value, k - 1);
      var j: nat :| Climbs(full, above, full[x].parent.value, j);
      var more := j + 1;
      assert Climbs(full, above, x, more);
    }
  }

  lemma {:induction false} WithoutMembers(ids: seq<Id>, root: Id, x: Id)
    ensures x in Without(ids, root) <==> x in ids && x != root
  {
    if |ids| > 0 {
      WithoutMembers(ids[1..], root, x);
    }
  }

  lemma {:induction false} TreeIsReachable(t: Tree, kids: map<Id, seq<Id>>, full: Pool, root: Id, n: Node)
    requires Consistent(full, kids) && Placed(t, kids, root) && t.node.id in full
    requires n in NodesOf(t) && n.id in full
    ensures Reachable(full, t.node.id, n.id)
    decreases t
  {
    if n == t.node {
      assert Climbs(full, n.id, n.id, 0);
    } else {
      var c := FindIn(t.children, n);
      assert t.children[c].node.id == TopIds(t.children)[c];
      WithoutMembers(KidsOf(kids, t.node.id), root, t.children[c].node.id);
      TreeIsReachable(t.children[c], kids, full, root, n);
      var k: nat :| Climbs(full, t.children[c].node.id, n.id, k);
      ClimbFurther(full, t.children[c].node.id, t.node.id, n.id, k);
    }
  }

  /** Which of the trees holds n. */
  lemma {:induction false} FindIn(trees: seq<Tree>, n: Node) returns (c: nat)
    requires n in NodesIn(trees)
    ensures c < |trees| && n in NodesOf(trees[c])
    decreases |trees|
  {
    if n in NodesOf(trees[0]) {
      c := 0;
    } else {
      c := FindIn(trees[1..], n);
      c := c + 1;
    }
  }

  lemma {:induction false} ClimbersAreGone(full: Pool, rest: Pool, root: Id, x: Id, k: nat)
    requires WholeFamilies(full, rest, full, [root]) && root !in rest
    requires Climbs(full, root, x, k)
    ensures x !in rest
    decreases k
  {
    if x != root {
      var n := full[x].parent.value;
      ClimbersAreGone(full, rest, root, n, k - 1);
      assert Gone(n, full, rest) && IsChild(full, x, n);
    }
  }

  // ---------- from the rows ----------

  /** The ids recorded under a parent, in row order. */
  function ChildIds(nodes: seq<Node>, n: Id): seq<Id> {
    if |nodes| == 0 then []
    else
      var last := nodes[|nodes| - 1];
      ChildIds(nodes[..|nodes| - 1], n) + (if last.parent == Some(n) then [last.id] else [])
  }

  lemma {:induction false} ListsAreChildIds(nodes: seq<Node>, n: Id)
    ensures KidsOf(ChildLists(nodes), n) == ChildIds(nodes, n)
  {
    if |nodes| > 0 {
      ListsAreChildIds(nodes[..|nodes| - 1], n);
    }
  }

  lemma {:induction false} ByIdMeaning(nodes: seq<Node>)
    requires UniqueIds(nodes)
    ensures Keyed(ById(nodes))
    ensures forall n :: n in nodes <==> n.id in ById(nodes) && ById(nodes)[n.id] == n
  {
    if |nodes| > 0 {
      var front, last := nodes[..|nodes| - 1], nodes[|nodes| - 1];
      ByIdMeaning(front);
      assert nodes == front + [last];
    }
  }

  /** Were two rows to share an id, the map would hold the later one. */
  lemma {:induction false} LaterRowWins(nodes: seq<Node>, i: nat)
    requires i < |nodes| && forall j :: i < j < |nodes| ==> nodes[j].id != nodes[i].id
    ensures nodes[i].id in ById(nodes) && ById(nodes)[nodes[i].id] == nodes[i]
  {
    if i < |nodes| - 1 {
      LaterRowWins(nodes[..|nodes| - 1], i);
    }
  }

  lemma LastIsNew(nodes: seq<Node>)
    requires |nodes| > 0 && UniqueIds(nodes)
    ensures nodes[|nodes| - 1].id !in ById(nodes[..|nodes| - 1])
  {
    var front := nodes[..|nodes| - 1];
    ByIdMeaning(front);
    forall x | x in ById(front) ensures x != nodes[|nodes| - 1].id {
      assert ById(front)[x] in front;
    }
  }

  lemma {:induction false} ChildIdsMeaning(nodes: seq<Node>, n: Id)
    requires UniqueIds(nodes)
    ensures NoRepeats(ChildIds(nodes, n))
    ensures forall c :: c in ChildIds(nodes, n) <==> IsChild(ById(nodes), c, n)
  {
    ByIdMeaning(nodes);
    if |nodes| > 0 {
      var front, last := nodes[..|nodes| - 1], nodes[|nodes| - 1];
      ChildIdsMeaning(front, n);
      ByIdMeaning(front);
      LastIsNew(nodes);
      assert last.id !in ChildIds(front, n);
    }
  }

  lemma RowsAreConsistent(nodes: seq<Node>)
    requires UniqueIds(nodes)
    ensures Consistent(ById(nodes), ChildLists(nodes))
  {
    ByIdMeaning(nodes);
    var full, kids := ById(nodes), ChildLists(nodes);
    forall n ensures NoRepeats(KidsOf(kids, n)) && forall c :: c in KidsOf(kids, n) <==> IsChild(full, c, n) {
      ListsAreChildIds(nodes, n);
      ChildIdsMeaning(nodes, n);
    }
  }

  /** The rows' tree: none exactly when the root's row is missing; otherwise the nodes in it are
      exactly those whose parent links lead to the root, each once, each holding its recorded
      children in row order, and what is left in the map is every other row. */
  lemma TreeOfRows(nodes: seq<Node>, root: Id)
    requires UniqueIds(nodes)
    ensures var full := ById(nodes);
            var r := Build(root, full, ChildLists(nodes));
            && (r.0.Some? <==> root in full)
            && Took(if r.0.Some? then NodesOf(r.0.value) else [], full, r.1)
            && (r.0.Some? ==>
                  && r.0.value.node == full[root]
                  && Placed(r.0.value, ChildLists(nodes), root)
                  && forall n :: n in NodesOf(r.0.value) <==> n in nodes && Reachable(full, root, n.id))
  {
    var full, kids := ById(nodes), ChildLists(nodes);
    ByIdMeaning(nodes);
    RowsAreConsistent(nodes);
    BuildConserves(root, full, kids);
    if root in full {
      BuildPlaces(root, full, kids, full, root);
      var (tree, rest) := Build(root, full, kids);
      forall n | n in NodesOf(tree.value) ensures n in nodes && Reachable(full, root, n.id) {
        TreeIsReachable(tree.value, kids, full, root, n);
      }
      forall n | n in nodes && Reachable(full, root, n.id) ensures n in NodesOf(tree.value) {
        var k: nat :| Climbs(full, root, n.id, k);
        ClimbersAreGone(full, rest, root, n.id, k);
      }
    }
  }
}
