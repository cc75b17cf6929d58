/** The display order of a debate page: an explicit stack against the recursive
    preorder of the reply trees (src/application/debate.rs). */
module ThreadView {
  import opened Prelude
  import opened Territory
  import opened Debate

  // ------------------------------------------------------------ the rows of a page

  predicate Has(rows: seq<Comment>, id: Id) { exists k :: 0 <= k < |rows| && rows[k].id == id }

  function RowOf(rows: seq<Comment>, id: Id): (c: Comment)
    requires Has(rows, id)
    ensures c in rows && c.id == id
  {
    if rows[|rows| - 1].id == id then rows[|rows| - 1]
    else
      assert Has(rows[..|rows| - 1], id) by {
        var k :| 0 <= k < |rows| && rows[k].id == id;
        assert rows[..|rows| - 1][k].id == id;
      }
      RowOf(rows[..|rows| - 1], id)
  }

  predicate Hangs(rows: seq<Comment>, roots: seq<Id>, c: Comment) {
    && c.root in roots && c.depth <= MAX_DEPTH
    && (if c.parent.None? then c.depth == 0 && c.root == c.id
        else Has(rows, c.parent.value) && Replies(c, RowOf(rows, c.parent.value)))
  }

  /** The comments of the page's threads, in any order: every reply with what it replies to. */
  ghost predicate Page(rows: seq<Comment>, roots: seq<Id>) {
    && DistinctIds(rows)
    && (forall k :: 0 <= k < |rows| ==> Hangs(rows, roots, rows[k]))
    && (forall k :: 0 <= k < |roots| ==> Has(rows, roots[k]) && RowOf(rows, roots[k]).parent.None?)
    && (forall k, l :: 0 <= k < l < |roots| ==> roots[k] != roots[l])
  }

  /** Replies of a comment in row order. */
  function Kids(rows: seq<Comment>, id: Id): seq<Id> {
    if rows == [] then []
    else
      var c := rows[|rows| - 1];
      Kids(rows[..|rows| - 1], id) + if c.parent == Some(id) then [c.id] else []
  }

  // ------------------------------------------------------------ the recursive order

  /** A comment followed by the trees of its replies, `h` levels down. */
  function Preorder(rows: seq<Comment>, id: Id, h: nat): seq<Id>
    decreases h, 0, 0
  {
    [id] + if h == 0 then [] else PreorderAll(rows, Kids(rows, id), h - 1)
  }

  function PreorderAll(rows: seq<Comment>, ids: seq<Id>, h: nat): seq<Id>
    decreases h, 1, |ids|
  {
    if ids == [] then [] else Preorder(rows, ids[0], h) + PreorderAll(rows, ids[1..], h)
  }

  /** Levels that may lie below a comment. */
  function Height(rows: seq<Comment>, id: Id): (h: nat)
    requires Has(rows, id)
  {
    var d := RowOf(rows, id).depth;
    if d <= MAX_DEPTH then MAX_DEPTH - d else 0
  }

  ghost predicate AllHave(rows: seq<Comment>, ids: seq<Id>) { forall k :: 0 <= k < |ids| ==> Has(rows, ids[k]) }

  /** The whole tree of a comment, and of a list of comments one after the other. */
  function Tree(rows: seq<Comment>, id: Id): seq<Id>
    requires Has(rows, id)
  {
    Preorder(rows, id, Height(rows, id))
  }

  ghost function Trees(rows: seq<Comment>, ids: seq<Id>): seq<Id>
    requires AllHave(rows, ids)
  {
    if ids == [] then [] else Tree(rows, ids[0]) + Trees(rows, ids[1..])
  }

  lemma RowOfIs(rows: seq<Comment>, k: nat)
    requires DistinctIds(rows) && k < |rows|
    ensures Has(rows, rows[k].id) && RowOf(rows, rows[k].id) == rows[k]
  {
    var c := RowOf(rows, rows[k].id);
    var j :| 0 <= j < |rows| && rows[j] == c;
    assert j == k;
  }

  lemma {:induction false} KidsAre(rows: seq<Comment>, id: Id)
    ensures forall x :: x in Kids(rows, id) <==>
              exists k :: 0 <= k < |rows| && rows[k].id == x && rows[k].parent == Some(id)
    ensures DistinctIds(rows) ==> forall k, l :: 0 <= k < l < |Kids(rows, id)| ==>
              Kids(rows, id)[k] != Kids(rows, id)[l]
  {
    if rows != [] {
      var init, c := rows[..|rows| - 1], rows[|rows| - 1];
      KidsAre(init, id);
      assert forall k :: 0 <= k < |init| ==> init[k] == rows[k];
      forall k, l | DistinctIds(rows) && 0 <= k < l < |Kids(rows, id)|
        ensures Kids(rows, id)[k] != Kids(rows, id)[l]
      {
        if l == |Kids(init, id)| {
          assert Kids(init, id)[k] in Kids(init, id);
        }
      }
    }
  }

  /** A reply in the rows is exactly a kid, one level down. */
  lemma KidRow(rows: seq<Comment>, roots: seq<Id>, id: Id, x: Id)
    requires Page(rows, roots) && Has(rows, id)
    ensures x in Kids(rows, id) <==> Has(rows, x) && RowOf(rows, x).parent == Some(id)
    ensures x in Kids(rows, id) ==> RowOf(rows, x).depth == RowOf(rows, id).depth + 1 <= MAX_DEPTH
  {
    KidsAre(rows, id);
    if x in Kids(rows, id) {
      var k :| 0 <= k < |rows| && rows[k].id == x && rows[k].parent == Some(id);
      RowOfIs(rows, k);
      assert Hangs(rows, roots, rows[k]);
    }
    if Has(rows, x) && RowOf(rows, x).parent == Some(id) {
      var k :| 0 <= k < |rows| && rows[k] == RowOf(rows, x);
      assert rows[k].id == x && rows[k].parent == Some(id);
    }
  }

  lemma KidsHave(rows: seq<Comment>, roots: seq<Id>, id: Id)
    requires Page(rows, roots) && Has(rows, id)
    ensures AllHave(rows, Kids(rows, id))
  {
    forall k | 0 <= k < |Kids(rows, id)|
      ensures Has(rows, Kids(rows, id)[k])
    {
      KidRow(rows, roots, id, Kids(rows, id)[k]);
    }
  }

  lemma LevelOf(rows: seq<Comment>, roots: seq<Id>, id: Id)
    requires Page(rows, roots) && Has(rows, id)
    ensures RowOf(rows, id).depth <= MAX_DEPTH
  {
    var k :| 0 <= k < |rows| && rows[k] == RowOf(rows, id);
    assert Hangs(rows, roots, rows[k]);
  }

  lemma KidsLevel(rows: seq<Comment>, roots: seq<Id>, id: Id)
    requires Page(rows, roots) && Has(rows, id) && AllHave(rows, Kids(rows, id))
    ensures forall k :: 0 <= k < |Kids(rows, id)| ==> RowOf(rows, Kids(rows, id)[k]).depth == RowOf(rows, id).depth + 1
    ensures RowOf(rows, id).depth == MAX_DEPTH ==> Kids(rows, id) == []
  {
    hide Page, Has, RowOf, Kids;
    var ids := Kids(rows, id);
    forall k | 0 <= k < |ids|
      ensures RowOf(rows, ids[k]).depth == RowOf(rows, id).depth + 1 <= MAX_DEPTH
    {
      KidRow(rows, roots, id, ids[k]);
    }
    assert |ids| > 0 ==> RowOf(rows, ids[0]).depth == RowOf(rows, id).depth + 1 <= MAX_DEPTH;
  }

  /** A tree is its comment followed by the trees of the replies. */
  lemma TreeUnfolds(rows: seq<Comment>, roots: seq<Id>, id: Id)
    requires Page(rows, roots) && Has(rows, id)
    ensures AllHave(rows, Kids(rows, id)) && Tree(rows, id) == [id] + Trees(rows, Kids(rows, id))
  {
    hide Page, Has, RowOf, Kids, AllHave, Trees, PreorderAll;
    KidsHave(rows, roots, id);
    LevelOf(rows, roots, id);
    KidsLevel(rows, roots, id);
    var d := RowOf(rows, id).depth;
    if d == MAX_DEPTH {
      NoTrees(rows);
    } else {
      SameLevel(rows, Kids(rows, id), d + 1);
    }
  }

  lemma NoTrees(rows: seq<Comment>)
    ensures AllHave(rows, []) && Trees(rows, []) == []
  {
  }

  lemma {:induction false} SameLevel(rows: seq<Comment>, ids: seq<Id>, d: nat)
    requires AllHave(rows, ids) && d <= MAX_DEPTH && forall k :: 0 <= k < |ids| ==> RowOf(rows, ids[k]).depth == d
    ensures PreorderAll(rows, ids, MAX_DEPTH - d) == Trees(rows, ids)
  {
    hide Has, RowOf, Preorder;
    if ids != [] {
      var rest := ids[1..];
      assert forall k :: 0 <= k < |rest| ==> rest[k] == ids[k + 1];
      SameLevel(rows, rest, d);
      assert Tree(rows, ids[0]) == Preorder(rows, ids[0], MAX_DEPTH - d);
    }
  }

  lemma {:induction false} TreesAppend(rows: seq<Comment>, a: seq<Id>, b: seq<Id>)
    requires AllHave(rows, a) && AllHave(rows, b)
    ensures AllHave(rows, a + b) && Trees(rows, a + b) == Trees(rows, a) + Trees(rows, b)
  {
    hide Tree, Has;
    if a == [] {
      assert a + b == b;
    } else {
      assert (a + b)[1..] == a[1..] + b;
      TreesAppend(rows, a[1..], b);
    }
  }

  // ------------------------------------------------------------ who is in a tree

  lemma ParentRow(rows: seq<Comment>, roots: seq<Id>, x: Id)
    requires Page(rows, roots) && Has(rows, x) && RowOf(rows, x).parent.Some?
    ensures Has(rows, RowOf(rows, x).parent.value)
    ensures var p := RowOf(rows, RowOf(rows, x).parent.value);
            RowOf(rows, x).depth == p.depth + 1 && RowOf(rows, x).root == p.root
  {
    var k :| 0 <= k < |rows| && rows[k] == RowOf(rows, x);
    assert Hangs(rows, roots, rows[k]);
  }

  /** `x` is `a` or a reply to something under `a`. */
  ghost predicate Under(rows: seq<Comment>, roots: seq<Id>, x: Id, a: Id)
    requires Page(rows, roots) && Has(rows, x)
    decreases RowOf(rows, x).depth
  {
    x == a ||
    (RowOf(rows, x).parent.Some? &&
     (ParentRow(rows, roots, x); Under(rows, roots, RowOf(rows, x).parent.value, a)))
  }

  lemma {:induction false} UnderIsBelow(rows: seq<Comment>, roots: seq<Id>, x: Id, a: Id)
    requires Page(rows, roots) && Has(rows, x) && Has(rows, a) && Under(rows, roots, x, a)
    ensures RowOf(rows, a).depth <= RowOf(rows, x).depth
    ensures RowOf(rows, a).depth == RowOf(rows, x).depth ==> x == a
    decreases RowOf(rows, x).depth
  {
    if x != a {
      ParentRow(rows, roots, x);
      UnderIsBelow(rows, roots, RowOf(rows, x).parent.value, a);
    }
  }

  lemma {:induction false} UnderTrans(rows: seq<Comment>, roots: seq<Id>, x: Id, b: Id, a: Id)
    requires Page(rows, roots) && Has(rows, x) && Has(rows, b)
    requires Under(rows, roots, x, b) && Under(rows, roots, b, a)
    ensures Under(rows, roots, x, a)
    decreases RowOf(rows, x).depth
  {
    if x != b {
      ParentRow(rows, roots, x);
      UnderTrans(rows, roots, RowOf(rows, x).parent.value, b, a);
    }
  }

  /** A comment has one ancestor on each level. */
  lemma {:induction false} UnderUnique(rows: seq<Comment>, roots: seq<Id>, x: Id, a: Id, b: Id)
    requires Page(rows, roots) && Has(rows, x) && Has(rows, a) && Has(rows, b)
    requires Under(rows, roots, x, a) && Under(rows, roots, x, b) && RowOf(rows, a).depth == RowOf(rows, b).depth
    ensures a == b
    decreases RowOf(rows, x).depth
  {
    if x == a {
      UnderIsBelow(rows, roots, x, b);
    } else if x == b {
      UnderIsBelow(rows, roots, x, a);
    } else {
      ParentRow(rows, roots, x);
      UnderUnique(rows, roots, RowOf(rows, x).parent.value, a, b);
    }
  }

  /** Every comment of the page lies under the root it names. */
  lemma {:induction false} UnderItsRoot(rows: seq<Comment>, roots: seq<Id>, x: Id)
    requires Page(rows, roots) && Has(rows, x)
    ensures Under(rows, roots, x, RowOf(rows, x).root) && RowOf(rows, x).root in roots
    decreases RowOf(rows, x).depth
  {
    var k :| 0 <= k < |rows| && rows[k] == RowOf(rows, x);
    assert Hangs(rows, roots, rows[k]);
    if RowOf(rows, x).parent.Some? {
      ParentRow(rows, roots, x);
      UnderItsRoot(rows, roots, RowOf(rows, x).parent.value);
    }
  }

  lemma {:induction false} TreesMember(rows: seq<Comment>, ids: seq<Id>, x: Id)
    requires AllHave(rows, ids)
    ensures x in Trees(rows, ids) <==> exists k :: 0 <= k < |ids| && x in Tree(rows, ids[k])
  {
    if ids != [] {
      TreesMember(rows, ids[1..], x);
      if k :| 0 <= k < |ids| && x in Tree(rows, ids[k]) {
        assert k > 0 ==> ids[1..][k - 1] == ids[k];
      }
      if k :| 0 <= k < |ids[1..]| && x in Tree(rows, ids[1..][k]) {
        assert ids[k + 1] == ids[1..][k];
      }
    }
  }

  lemma KidUnder(rows: seq<Comment>, roots: seq<Id>, x: Id, a: Id)
    requires Page(rows, roots) && Has(rows, x) && RowOf(rows, x).parent == Some(a)
    ensures Under(rows, roots, x, a)
  {
    hide Page, Has, RowOf;
    ParentRow(rows, roots, x);
  }

  lemma {:induction false} TreeHolds(rows: seq<Comment>, roots: seq<Id>, a: Id, x: Id)
    requires Page(rows, roots) && Has(rows, a) && x in Tree(rows, a)
    ensures Has(rows, x) && Under(rows, roots, x, a)
    decreases MAX_DEPTH - RowOf(rows, a).depth
  {
    hide Page, Has, RowOf, Kids, Tree, Trees;
    TreeUnfolds(rows, roots, a);
    var kids := Kids(rows, a);
    if x != a {
      assert x in Trees(rows, kids);
      TreesMember(rows, kids, x);
      var k :| 0 <= k < |kids| && x in Tree(rows, kids[k]);
      KidRow(rows, roots, a, kids[k]);
      TreeHolds(rows, roots, kids[k], x);
      KidUnder(rows, roots, kids[k], a);
      hide Under;
      UnderTrans(rows, roots, x, kids[k], a);
    }
  }

  lemma {:induction false} TreeClosed(rows: seq<Comment>, roots: seq<Id>, a: Id, p: Id, x: Id)
    requires Page(rows, roots) && Has(rows, a) && Has(rows, p) && p in Tree(rows, a) && x in Kids(rows, p)
    ensures x in Tree(rows, a)
    decreases MAX_DEPTH - RowOf(rows, a).depth
  {
    TreeUnfolds(rows, roots, a);
    var kids := Kids(rows, a);
    if p == a {
      var k :| 0 <= k < |kids| && kids[k] == x;
      KidRow(rows, roots, a, x);
      TreeUnfolds(rows, roots, x);
      assert Tree(rows, x)[0] == x;
      TreesMember(rows, kids, x);
    } else {
      TreesMember(rows, kids, p);
      var k :| 0 <= k < |kids| && p in Tree(rows, kids[k]);
      KidRow(rows, roots, a, kids[k]);
      TreeClosed(rows, roots, kids[k], p, x);
      TreesMember(rows, kids, x);
    }
  }

  lemma {:induction false} UnderIsHeld(rows: seq<Comment>, roots: seq<Id>, a: Id, x: Id)
    requires Page(rows, roots) && Has(rows, a) && Has(rows, x) && Under(rows, roots, x, a)
    ensures x in Tree(rows, a)
    decreases RowOf(rows, x).depth
  {
    if x == a {
      TreeUnfolds(rows, roots, a);
      assert Tree(rows, a)[0] == a;
    } else {
      ParentRow(rows, roots, x);
      var p := RowOf(rows, x).parent.value;
      UnderIsHeld(rows, roots, a, p);
      KidRow(rows, roots, p, x);
      TreeClosed(rows, roots, a, p, x);
    }
  }

  // ------------------------------------------------------------ nothing twice

  ghost predicate Distinct(ids: seq<Id>) { forall k, l :: 0 <= k < l < |ids| ==> ids[k] != ids[l] }

  lemma DistinctJoin(a: seq<Id>, b: seq<Id>)
    requires Distinct(a) && Distinct(b) && forall x :: x in a ==> x !in b
    ensures Distinct(a + b)
  {
    forall k, l | 0 <= k < l < |a + b|
      ensures (a + b)[k] != (a + b)[l]
    {
      if k < |a| <= l {
        assert a[k] in a && b[l - |a|] in b;
      }
    }
  }

  lemma TreesApart(rows: seq<Comment>, roots: seq<Id>, a: Id, rest: seq<Id>, x: Id)
    requires Page(rows, roots) && Has(rows, a) && AllHave(rows, rest) && x in Tree(rows, a)
    requires forall k :: 0 <= k < |rest| ==> rest[k] != a && RowOf(rows, rest[k]).depth == RowOf(rows, a).depth
    ensures x !in Trees(rows, rest)
  {
    hide Page, Has, RowOf, Tree, Trees, Under;
    TreeHolds(rows, roots, a, x);
    if x in Trees(rows, rest) {
      TreesMember(rows, rest, x);
      var k :| 0 <= k < |rest| && x in Tree(rows, rest[k]);
      TreeHolds(rows, roots, rest[k], x);
      UnderUnique(rows, roots, x, a, rest[k]);
    }
  }

  lemma Tail(rows: seq<Comment>, ids: seq<Id>)
    requires AllHave(rows, ids) && Distinct(ids) && ids != []
    ensures Has(rows, ids[0]) && AllHave(rows, ids[1..]) && Distinct(ids[1..])
    ensures forall k :: 0 <= k < |ids[1..]| ==> ids[1..][k] != ids[0]
  {
    hide Has;
    assert forall k :: 0 <= k < |ids[1..]| ==> ids[1..][k] == ids[k + 1];
  }

  lemma NoneDistinct()
    ensures Distinct([])
  {
  }

  lemma TreesFirst(rows: seq<Comment>, ids: seq<Id>)
    requires AllHave(rows, ids) && ids != []
    ensures Has(rows, ids[0]) && AllHave(rows, ids[1..])
    ensures Trees(rows, ids) == Tree(rows, ids[0]) + Trees(rows, ids[1..])
  {
    hide Has, Tree;
  }

  lemma {:induction false} TreesDistinct(rows: seq<Comment>, roots: seq<Id>, ids: seq<Id>, d: nat)
    requires Page(rows, roots) && AllHave(rows, ids) && Distinct(ids) && d <= MAX_DEPTH
    requires forall k :: 0 <= k < |ids| ==> RowOf(rows, ids[k]).depth == d
    ensures Distinct(Trees(rows, ids))
    decreases MAX_DEPTH - d, 1, |ids|
  {
    hide Page, Has, RowOf, Tree, AllHave, Distinct, Trees;
    if ids == [] {
      NoTrees(rows);
      NoneDistinct();
    } else {
      var rest := ids[1..];
      Tail(rows, ids);
      TreesFirst(rows, ids);
      assert forall k :: 0 <= k < |rest| ==> rest[k] == ids[k + 1];
      TreesDistinct(rows, roots, rest, d);
      TreeDistinct(rows, roots, ids[0]);
      forall x | x in Tree(rows, ids[0])
        ensures x !in Trees(rows, rest)
      {
        TreesApart(rows, roots, ids[0], rest, x);
      }
      DistinctJoin(Tree(rows, ids[0]), Trees(rows, rest));
    }
  }

  lemma {:induction false} TreeDistinct(rows: seq<Comment>, roots: seq<Id>, a: Id)
    requires Page(rows, roots) && Has(rows, a)
    ensures Distinct(Tree(rows, a))
    decreases MAX_DEPTH - RowOf(rows, a).depth, 0, 0
  {
    TreeUnfolds(rows, roots, a);
    KidsAre(rows, a);
    var kids := Kids(rows, a);
    if kids != [] {
      forall k | 0 <= k < |kids|
        ensures RowOf(rows, kids[k]).depth == RowOf(rows, a).depth + 1 <= MAX_DEPTH
      {
        KidRow(rows, roots, a, kids[k]);
      }
      assert RowOf(rows, kids[0]).depth == RowOf(rows, a).depth + 1;
      TreesDistinct(rows, roots, kids, RowOf(rows, a).depth + 1);
      forall x | x in [a]
        ensures x !in Trees(rows, kids)
      {
        if a in Trees(rows, kids) {
          TreesMember(rows, kids, a);
          var k :| 0 <= k < |kids| && a in Tree(rows, kids[k]);
          TreeHolds(rows, roots, kids[k], a);
          UnderIsBelow(rows, roots, a, kids[k]);
        }
      }
      DistinctJoin([a], Trees(rows, kids));
    }
  }

  lemma RootsLevel(rows: seq<Comment>, roots: seq<Id>)
    requires Page(rows, roots)
    ensures AllHave(rows, roots) && Distinct(roots)
    ensures forall k :: 0 <= k < |roots| ==> RowOf(rows, roots[k]).depth == 0
  {
    forall k | 0 <= k < |roots|
      ensures Has(rows, roots[k]) && RowOf(rows, roots[k]).depth == 0
    {
      var j :| 0 <= j < |rows| && rows[j] == RowOf(rows, roots[k]);
      assert Hangs(rows, roots, rows[j]);
    }
  }

  /** The recursive order of the page's threads lists every comment of the page once. */
  lemma PreorderListsOnce(rows: seq<Comment>, roots: seq<Id>)
    requires Page(rows, roots)
    ensures AllHave(rows, roots) && Distinct(Trees(rows, roots))
    ensures forall x :: x in Trees(rows, roots) <==> Has(rows, x)
  {
    hide Page, Has, RowOf, Tree, Trees, Under, Distinct, AllHave;
    RootsLevel(rows, roots);
    TreesDistinct(rows, roots, roots, 0);
    forall x
      ensures x in Trees(rows, roots) <==> Has(rows, x)
    {
      TreesMember(rows, roots, x);
      if x in Trees(rows, roots) {
        var k :| 0 <= k < |roots| && x in Tree(rows, roots[k]);
        HasRoot(rows, roots, k);
        TreeHolds(rows, roots, roots[k], x);
      }
      if Has(rows, x) {
        UnderItsRoot(rows, roots, x);
        var k :| 0 <= k < |roots| && roots[k] == RowOf(rows, x).root;
        HasRoot(rows, roots, k);
        UnderIsHeld(rows, roots, roots[k], x);
      }
    }
  }

  lemma HasRoot(rows: seq<Comment>, roots: seq<Id>, k: int)
    requires AllHave(rows, roots) && 0 <= k < |roots|
    ensures Has(rows, roots[k])
  {
    hide Has;
  }

  // ------------------------------------------------------------ the stack

  function Reversed(ids: seq<Id>): seq<Id> {
    if ids == [] then [] else [ids[|ids| - 1]] + Reversed(ids[..|ids| - 1])
  }

  lemma {:induction false} ReversedTwice(ids: seq<Id>)
    ensures Reversed(Reversed(ids)) == ids
  {
    if ids != [] {
      var init, last := ids[..|ids| - 1], ids[|ids| - 1];
      ReversedTwice(init);
      ReversedFront(last, Reversed(init));
    }
  }

  lemma {:induction false} ReversedFront(x: Id, ids: seq<Id>)
    ensures Reversed([x] + ids) == Reversed(ids) + [x]
  {
    if ids != [] {
      assert ([x] + ids)[..|ids|] == [x] + ids[..|ids| - 1];
      ReversedFront(x, ids[..|ids| - 1]);
    }
  }

  lemma {:induction false} ReversedAppend(a: seq<Id>, b: seq<Id>)
    ensures Reversed(a + b) == Reversed(b) + Reversed(a)
  {
    if b == [] {
      assert a + b == a;
    } else {
      assert (a + b)[..|a + b| - 1] == a + b[..|b| - 1];
      ReversedAppend(a, b[..|b| - 1]);
    }
  }

  function Ids(cs: seq<Comment>): seq<Id> { seq(|cs|, k requires 0 <= k < |cs| => cs[k].id) }

  /** Emitting the top of the stack and pushing its replies in reverse leaves the same
      order to come. */
  lemma StackStep(rows: seq<Comment>, roots: seq<Id>, rest: seq<Id>, id: Id)
    requires Page(rows, roots) && AllHave(rows, Reversed(rest + [id]))
    ensures Has(rows, id) && AllHave(rows, Reversed(rest + Reversed(Kids(rows, id))))
    ensures Trees(rows, Reversed(rest + [id])) == [id] + Trees(rows, Reversed(rest + Reversed(Kids(rows, id))))
  {
    hide Page, Has, Kids, Tree, Trees;
    var kids := Kids(rows, id);
    ReversedAppend(rest, [id]);
    assert Reversed([id]) == [id] by { assert [id][..0] == []; }
    assert Reversed(rest + [id]) == [id] + Reversed(rest);
    assert Reversed(rest + [id])[0] == id;
    TreesFirst(rows, Reversed(rest + [id]));
    assert Reversed(rest + [id])[1..] == Reversed(rest);
    TreeUnfolds(rows, roots, id);
    ReversedTwice(kids);
    ReversedAppend(rest, Reversed(kids));
    TreesAppend(rows, kids, Reversed(rest));
  }

  /** The page's comments by id and the replies of each in row order. */
  method Index(rows: seq<Comment>) returns (byId: map<Id, Comment>, children: map<Option<Id>, seq<Id>>)
    requires DistinctIds(rows)
    ensures Catalogued(rows, byId) && Grouped(rows, |rows|, children)
  {
    hide Has, RowOf, Kids, Indexed, Grouped, DistinctIds;
    byId, children := map[], map[];
    StartsIndexed(rows);
    for k := 0 to |rows|
      invariant Indexed(rows, k, byId) && Grouped(rows, k, children)
    {
      IndexedMore(rows, k, byId);
      GroupedMore(rows, k, children);
      var c := rows[k];
      children := children[c.parent := RepliesTo(children, c.parent) + [c.id]];
      byId := byId[c.id := c];
    }
    IndexedAll(rows, byId);
    assert Grouped(rows, |rows|, children);
  }

  /** How far the display has come: what is shown, what waits on the stack and what is
      left in the map are the two halves of the recursive order. */
  ghost predicate Halfway(rows: seq<Comment>, all: seq<Id>, n: nat, stack: seq<Id>, shown: seq<Comment>,
                          byId: map<Id, Comment>)
  {
    && AllHave(rows, Reversed(stack)) && n <= |all| && all[n..] == Trees(rows, Reversed(stack))
    && Ids(shown) == all[..n]
    && (forall k :: 0 <= k < |shown| ==> Has(rows, shown[k].id) && shown[k] == RowOf(rows, shown[k].id))
    && (forall x :: x in byId <==> x in all[n..])
    && (forall x :: x in byId ==> Has(rows, x) && byId[x] == RowOf(rows, x))
  }

  lemma OneShown(rows: seq<Comment>, roots: seq<Id>, all: seq<Id>, n: nat, rest: seq<Id>, id: Id, shown: seq<Comment>,
                 byId: map<Id, Comment>)
    requires Page(rows, roots) && Distinct(all) && Halfway(rows, all, n, rest + [id], shown, byId)
    ensures id in byId && n < |all|
    ensures Halfway(rows, all, n + 1, rest + Reversed(Kids(rows, id)), shown + [byId[id]], byId - {id})
  {
    hide Page, Has, Kids, Tree, Trees, Distinct, AllHave, RowOf, Reversed;
    StackStep(rows, roots, rest, id);
    assert all[n..][0] == id;
    NextInLine(all, n, id);
    assert Ids(shown + [byId[id]]) == Ids(shown) + [id];
  }

  /** Depth-first display order with an explicit stack: it ends, and shows the page's
      comments in the recursive order, each once. */
  method Flatten(rows: seq<Comment>, roots: seq<Id>) returns (shown: seq<Comment>)
    requires Page(rows, roots)
    ensures AllHave(rows, roots) && Ids(shown) == Trees(rows, roots)
    ensures forall c :: c in shown <==> c in rows
    ensures DistinctIds(shown)
  {
    hide Has, Kids, Tree, Trees, Distinct, AllHave, RowOf, Reversed, DistinctIds, Ids, Grouped, Halfway, Catalogued,
         Hangs;
    var byId, children := Index(rows);
    hide Page;
    StartsHalfway(rows, roots, byId);
    ghost var all := Trees(rows, roots);
    var stack := Reversed(roots);
    shown := [];
    ghost var n := 0;
    while stack != []
      invariant Halfway(rows, all, n, stack, shown, byId) && n <= |all|
      decreases |all| - n
    {
      var id, rest := stack[|stack| - 1], stack[..|stack| - 1];
      assert stack == rest + [id];
      OneShown(rows, roots, all, n, rest, id, shown, byId);
      GroupedKids(rows, children, id);
      stack := rest + Reversed(RepliesTo(children, Some(id)));
      if id in byId {
        shown := shown + [byId[id]];
        byId := byId - {id};
      }
      n := n + 1;
    }
    EndsHalfway(rows, all, n, shown, byId);
    ShownAll(rows, roots, shown);
  }

  lemma StartsHalfway(rows: seq<Comment>, roots: seq<Id>, byId: map<Id, Comment>)
    requires Page(rows, roots) && Catalogued(rows, byId)
    ensures AllHave(rows, roots) && Distinct(Trees(rows, roots))
    ensures Halfway(rows, Trees(rows, roots), 0, Reversed(roots), [], byId)
  {
    hide Page, Has, RowOf, Trees, Reversed, AllHave, Distinct;
    PreorderListsOnce(rows, roots);
    ReversedTwice(roots);
  }

  lemma EndsHalfway(rows: seq<Comment>, all: seq<Id>, n: nat, shown: seq<Comment>, byId: map<Id, Comment>)
    requires Halfway(rows, all, n, [], shown, byId)
    ensures Ids(shown) == all
    ensures forall k :: 0 <= k < |shown| ==> Has(rows, shown[k].id) && shown[k] == RowOf(rows, shown[k].id)
  {
    hide Has, RowOf;
    NoTrees(rows);
    assert Reversed([]) == [];
    assert all[..n] + all[n..] == all;
  }

  lemma NextInLine(all: seq<Id>, n: nat, id: Id)
    requires Distinct(all) && n < |all| && all[n] == id
    ensures all[n..] == [id] + all[n + 1..] && all[..n + 1] == all[..n] + [id]
    ensures forall x :: x in all[n + 1..] <==> x in all[n..] && x != id
  {
  }

  /** What the loop over the rows has put in the map of comments and in the lists of
      replies. */
  ghost predicate Indexed(rows: seq<Comment>, n: nat, byId: map<Id, Comment>) {
    && n <= |rows|
    && (forall x :: x in byId <==> Has(rows[..n], x))
    && (forall k :: 0 <= k < n ==> rows[k].id in byId && byId[rows[k].id] == rows[k])
  }

  function RepliesTo(children: map<Option<Id>, seq<Id>>, parent: Option<Id>): seq<Id> {
    if parent in children then children[parent] else []
  }

  ghost predicate Grouped(rows: seq<Comment>, n: nat, children: map<Option<Id>, seq<Id>>) {
    n <= |rows| && forall p: Id :: RepliesTo(children, Some(p)) == Kids(rows[..n], p)
  }

  lemma StartsIndexed(rows: seq<Comment>)
    ensures Indexed(rows, 0, map[]) && Grouped(rows, 0, map[])
  {
  }

  lemma IndexedMore(rows: seq<Comment>, n: nat, byId: map<Id, Comment>)
    requires n < |rows| && DistinctIds(rows) && Indexed(rows, n, byId)
    ensures Indexed(rows, n + 1, byId[rows[n].id := rows[n]])
  {
    var c := rows[n];
    forall x
      ensures Has(rows[..n + 1], x) <==> Has(rows[..n], x) || x == c.id
    {
      assert rows[..n + 1] == rows[..n] + [c];
      if Has(rows[..n], x) {
        var k :| 0 <= k < n && rows[..n][k].id == x;
        assert rows[..n + 1][k].id == x;
      }
      assert rows[..n + 1][n].id == c.id;
      if Has(rows[..n + 1], x) {
        var k :| 0 <= k <= n && rows[..n + 1][k].id == x;
        assert k < n ==> rows[..n][k].id == x;
      }
    }
  }

  lemma GroupedMore(rows: seq<Comment>, n: nat, children: map<Option<Id>, seq<Id>>)
    requires n < |rows| && Grouped(rows, n, children)
    ensures Grouped(rows, n + 1, children[rows[n].parent := RepliesTo(children, rows[n].parent) + [rows[n].id]])
  {
    assert rows[..n + 1][..n] == rows[..n];
  }

  lemma GroupedKids(rows: seq<Comment>, children: map<Option<Id>, seq<Id>>, id: Id)
    requires Grouped(rows, |rows|, children)
    ensures RepliesTo(children, Some(id)) == Kids(rows, id)
  {
    assert rows[..|rows|] == rows;
  }

  /** Every comment of the rows under its id. */
  ghost predicate Catalogued(rows: seq<Comment>, byId: map<Id, Comment>) {
    && (forall x :: x in byId <==> Has(rows, x))
    && (forall x :: x in byId ==> byId[x] == RowOf(rows, x))
  }

  lemma IndexedAll(rows: seq<Comment>, byId: map<Id, Comment>)
    requires Indexed(rows, |rows|, byId)
    ensures Catalogued(rows, byId)
  {
    assert rows[..|rows|] == rows;
    forall x | x in byId
      ensures Has(rows, x) && byId[x] == RowOf(rows, x)
    {
      var k :| 0 <= k < |rows| && rows[k] == RowOf(rows, x);
    }
  }

  lemma ShownOnce(rows: seq<Comment>, roots: seq<Id>, shown: seq<Comment>)
    requires Page(rows, roots) && AllHave(rows, roots) && Ids(shown) == Trees(rows, roots)
    ensures DistinctIds(shown)
  {
    hide Page, Trees, AllHave, Has;
    PreorderListsOnce(rows, roots);
    assert forall k :: 0 <= k < |shown| ==> Ids(shown)[k] == shown[k].id;
  }

  lemma Listed(rows: seq<Comment>, roots: seq<Id>, k: nat)
    requires Page(rows, roots) && AllHave(rows, roots) && k < |rows|
    ensures Has(rows, rows[k].id) && RowOf(rows, rows[k].id) == rows[k] && rows[k].id in Trees(rows, roots)
  {
    RowOfIs(rows, k);
    hide Page, Trees, AllHave, Has, RowOf, Distinct;
    PreorderListsOnce(rows, roots);
  }

  lemma ShownHas(rows: seq<Comment>, roots: seq<Id>, shown: seq<Comment>, c: Comment)
    requires Page(rows, roots) && AllHave(rows, roots) && Ids(shown) == Trees(rows, roots) && c in rows
    requires forall k :: 0 <= k < |shown| ==> Has(rows, shown[k].id) && shown[k] == RowOf(rows, shown[k].id)
    ensures c in shown
  {
    hide Page, Trees, AllHave, Has, RowOf;
    var j :| 0 <= j < |rows| && rows[j] == c;
    Listed(rows, roots, j);
    assert c.id in Ids(shown);
    var n: nat :| n < |Ids(shown)| && Ids(shown)[n] == c.id;
    assert shown[n].id == c.id;
  }

  lemma ShownAll(rows: seq<Comment>, roots: seq<Id>, shown: seq<Comment>)
    requires Page(rows, roots) && AllHave(rows, roots) && Ids(shown) == Trees(rows, roots)
    requires forall k :: 0 <= k < |shown| ==> Has(rows, shown[k].id) && shown[k] == RowOf(rows, shown[k].id)
    ensures forall c :: c in shown <==> c in rows
    ensures DistinctIds(shown)
  {
    hide Page, Trees, AllHave, Has, DistinctIds, Ids;
    ShownOnce(rows, roots, shown);
    forall c | c in rows
      ensures c in shown
    {
      ShownHas(rows, roots, shown, c);
    }
  }

  // ------------------------------------------------------------ the page of a real board

  ghost predicate IsTop(cs: seq<Comment>, proposal: Id, id: Id) {
    exists c :: c in cs && c.id == id && c.proposal == proposal && Tops(c)
  }

  /** The rows the page query selects, whatever its order. */
  ghost predicate Selected(cs: seq<Comment>, proposal: Id, roots: seq<Id>, rows: seq<Comment>) {
    && DistinctIds(rows) && Distinct(roots)
    && (forall c :: c in rows <==> c in cs && c.proposal == proposal && c.root in roots)
    && (forall k :: 0 <= k < |roots| ==> IsTop(cs, proposal, roots[k]))
  }

  lemma SelectedHangs(cs: seq<Comment>, proposal: Id, roots: seq<Id>, rows: seq<Comment>, c: Comment)
    requires WellBuilt(cs) && Selected(cs, proposal, roots, rows) && c in rows
    ensures Hangs(rows, roots, c)
  {
    var k :| 0 <= k < |cs| && cs[k] == c;
    assert Placed(cs, k);
    if !Tops(c) {
      var j :| 0 <= j < k && Replies(c, cs[j]);
      var p := cs[j];
      assert p in cs && p in rows;
      var n :| 0 <= n < |rows| && rows[n] == p;
      RowOfIs(rows, n);
    }
  }

  /** On any board built by posting, the selected rows are a page, so `Flatten` shows
      every comment of the selected threads once, in preorder. */
  lemma SelectedIsPage(cs: seq<Comment>, proposal: Id, roots: seq<Id>, rows: seq<Comment>)
    requires WellBuilt(cs) && Selected(cs, proposal, roots, rows)
    ensures Page(rows, roots)
  {
    assert DistinctIds(rows) && Distinct(roots);
    hide Hangs, Has, RowOf, Selected, WellBuilt, DistinctIds;
    forall k | 0 <= k < |rows|
      ensures Hangs(rows, roots, rows[k])
    {
      SelectedHangs(cs, proposal, roots, rows, rows[k]);
    }
    forall k | 0 <= k < |roots|
      ensures Has(rows, roots[k]) && RowOf(rows, roots[k]).parent.None?
    {
      SelectedRoot(cs, proposal, roots, rows, k);
    }
  }

  lemma SelectedRoot(cs: seq<Comment>, proposal: Id, roots: seq<Id>, rows: seq<Comment>, k: nat)
    requires Selected(cs, proposal, roots, rows) && k < |roots|
    ensures Has(rows, roots[k]) && RowOf(rows, roots[k]).parent.None?
  {
    assert IsTop(cs, proposal, roots[k]);
    var c :| c in cs && c.id == roots[k] && c.proposal == proposal && Tops(c);
    assert c in rows;
    var n :| 0 <= n < |rows| && rows[n] == c;
    RowOfIs(rows, n);
  }
}
