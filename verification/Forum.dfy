/** Comment trees (routers/forum.py). A comment's id is its position in the table. */
module Forum {
  import opened Common

  // An empty parent id is stored as it is: it is neither a first-level comment nor a reply.
  datatype Parent = Top | Blank | Reply(id: nat)

  datatype Comment = Comment(post: nat, parent: Parent, created: Time)

  datatype Tree = Node(id: nat, replies: seq<Tree>)

  // Replies name an earlier comment of the same post.
  ghost predicate WellFormed(table: seq<Comment>) {
    forall k :: 0 <= k < |table| && table[k].parent.Reply? ==>
      table[k].parent.id < k && table[table[k].parent.id].post == table[k].post
  }

  // create_comment; None when the parent is not a comment of this post.
  function Added(table: seq<Comment>, post: nat, parent: Parent, now: Time): Option<seq<Comment>> {
    if parent.Reply? && (parent.id >= |table| || table[parent.id].post != post) then None
    else Some(table + [Comment(post, parent, now)])
  }

  // Every table filled by create_comment is well formed.
  lemma AddedWellFormed(table: seq<Comment>, post: nat, parent: Parent, now: Time)
    requires WellFormed(table)
    ensures Added(table, post, parent, now).Some? ==> WellFormed(Added(table, post, parent, now).value)
  {
  }

  // The requests of create_comment, in the order in which they committed.
  datatype Request = Request(post: nat, parent: Parent, now: Time)

  function Filled(table: seq<Comment>, requests: seq<Request>): seq<Comment>
    decreases |requests|
  {
    if requests == [] then table
    else
      var r := requests[0];
      var added := Added(table, r.post, r.parent, r.now);
      Filled(if added.Some? then added.value else table, requests[1..])
  }

  lemma {:induction false} FilledWellFormed(table: seq<Comment>, requests: seq<Request>)
    requires WellFormed(table)
    ensures WellFormed(Filled(table, requests))
    decreases |requests|
  {
    hide WellFormed;
    if requests != [] {
      var r := requests[0];
      AddedWellFormed(table, r.post, r.parent, r.now);
      var added := Added(table, r.post, r.parent, r.now);
      FilledWellFormed(if added.Some? then added.value else table, requests[1..]);
    }
  }

  // ---- sorting by time ----

  function Created(table: seq<Comment>, id: nat): Time { if id < |table| then table[id].created else 0 }

  predicate InOrder(table: seq<Comment>, ids: seq<nat>) {
    forall i, j :: 0 <= i < j < |ids| ==> Created(table, ids[i]) <= Created(table, ids[j])
  }

  // A stable insertion: behind every element that is not later.
  function Insert(table: seq<Comment>, ids: seq<nat>, id: nat): seq<nat>
    decreases |ids|
  {
    if ids == [] || Created(table, ids[|ids| - 1]) <= Created(table, id) then ids + [id]
    else Insert(table, ids[..|ids| - 1], id) + [ids[|ids| - 1]]
  }

  function Sorted(table: seq<Comment>, ids: seq<nat>): seq<nat>
    decreases |ids|
  {
    if ids == [] then [] else Insert(table, Sorted(table, ids[..|ids| - 1]), ids[|ids| - 1])
  }

  function Times(ids: seq<nat>, x: nat): nat {
    if ids == [] then 0 else (if ids[0] == x then 1 else 0) + Times(ids[1..], x)
  }

  lemma {:induction false} TimesConcat(a: seq<nat>, b: seq<nat>, x: nat)
    ensures Times(a + b, x) == Times(a, x) + Times(b, x)
  {
    if a == [] {
      assert a + b == b;
    } else {
      assert (a + b)[1..] == a[1..] + b;
      TimesConcat(a[1..], b, x);
    }
  }

  lemma TimesIn(ids: seq<nat>, x: nat)
    ensures x in ids <==> Times(ids, x) > 0
  {
    if ids != [] { TimesIn(ids[1..], x); }
  }

  lemma TimesOne(id: nat, x: nat)
    ensures Times([id], x) == if id == x then 1 else 0
  {
    assert [id][1..] == [];
  }

  lemma {:induction false} InsertOk(table: seq<Comment>, ids: seq<nat>, id: nat, x: nat)
    requires InOrder(table, ids)
    ensures InOrder(table, Insert(table, ids, id))
    ensures Times(Insert(table, ids, id), x) == Times(ids, x) + if id == x then 1 else 0
    ensures forall y :: y in Insert(table, ids, id) ==> y == id || y in ids
    decreases |ids|
  {
    TimesOne(id, x);
    if ids == [] || Created(table, ids[|ids| - 1]) <= Created(table, id) {
      TimesConcat(ids, [id], x);
    } else {
      var (front, last) := (ids[..|ids| - 1], ids[|ids| - 1]);
      InsertOk(table, front, id, x);
      assert ids == front + [last];
      TimesConcat(front, [last], x);
      TimesConcat(Insert(table, front, id), [last], x);
      assert forall y :: y in front ==> y in ids;
      forall i | 0 <= i < |Insert(table, front, id)| ensures Created(table, Insert(table, front, id)[i]) <= Created(table, last) {
        var y := Insert(table, front, id)[i];
        if y != id {
          assert y in front;
          var j :| 0 <= j < |front| && front[j] == y;
          assert ids[j] == y;
        }
      }
    }
  }

  // A permutation in order.
  lemma {:induction false} SortedOk(table: seq<Comment>, ids: seq<nat>, x: nat)
    ensures InOrder(table, Sorted(table, ids))
    ensures Times(Sorted(table, ids), x) == Times(ids, x)
    decreases |ids|
  {
    if ids != [] {
      var (front, last) := (ids[..|ids| - 1], ids[|ids| - 1]);
      SortedOk(table, front, x);
      InsertOk(table, Sorted(table, front), last, x);
      assert ids == front + [last];
      TimesConcat(front, [last], x);
      TimesOne(last, x);
    }
  }

  // ---- the tree ----

  // Comments below k of a post that name this parent, in table order.
  function ChildrenBelow(table: seq<Comment>, post: nat, parent: Parent, k: nat): seq<nat>
    requires k <= |table|
  {
    if k == 0 then []
    else ChildrenBelow(table, post, parent, k - 1)
         + if table[k - 1].post == post && table[k - 1].parent == parent then [k - 1] else []
  }

  function Level(table: seq<Comment>, post: nat, parent: Parent): seq<nat> {
    Sorted(table, ChildrenBelow(table, post, parent, |table|))
  }

  predicate IsChild(table: seq<Comment>, post: nat, parent: Parent, x: nat) {
    x < |table| && table[x].post == post && table[x].parent == parent
  }

  lemma {:induction false} ChildrenOnce(table: seq<Comment>, post: nat, parent: Parent, k: nat, x: nat)
    requires k <= |table|
    ensures Times(ChildrenBelow(table, post, parent, k), x) == if x < k && IsChild(table, post, parent, x) then 1 else 0
  {
    if k > 0 {
      ChildrenOnce(table, post, parent, k - 1, x);
      TimesConcat(ChildrenBelow(table, post, parent, k - 1),
                  if table[k - 1].post == post && table[k - 1].parent == parent then [k - 1] else [], x);
      TimesOne(k - 1, x);
    }
  }

  // A level holds each child once, oldest first.
  lemma LevelOk(table: seq<Comment>, post: nat, parent: Parent, x: nat)
    ensures InOrder(table, Level(table, post, parent))
    ensures Times(Level(table, post, parent), x) == if IsChild(table, post, parent, x) then 1 else 0
    ensures x in Level(table, post, parent) <==> IsChild(table, post, parent, x)
  {
    var ids := ChildrenBelow(table, post, parent, |table|);
    SortedOk(table, ids, x);
    ChildrenOnce(table, post, parent, |table|, x);
    TimesIn(Level(table, post, parent), x);
  }

  // How deep the table can still go below a parent.
  function Room(table: seq<Comment>, parent: Parent): nat {
    if parent.Reply? then (if parent.id < |table| then |table| - parent.id else 0) else |table| + 1
  }

  // build_tree: a level in order, each comment with its own replies. It ends because replies
  // stand behind their parents in the table.
  ghost function Build(table: seq<Comment>, post: nat, parent: Parent): seq<Tree>
    requires WellFormed(table)
    decreases Room(table, parent), 1, 0
  {
    LevelMembers(table, post, parent);
    Nodes(table, post, parent, Level(table, post, parent))
  }

  lemma LevelMembers(table: seq<Comment>, post: nat, parent: Parent)
    ensures forall x :: x in Level(table, post, parent) ==> IsChild(table, post, parent, x)
  {
    forall x | x in Level(table, post, parent) ensures IsChild(table, post, parent, x) {
      LevelOk(table, post, parent, x);
    }
  }

  ghost function Nodes(table: seq<Comment>, post: nat, parent: Parent, ids: seq<nat>): seq<Tree>
    requires WellFormed(table) && forall x :: x in ids ==> IsChild(table, post, parent, x)
    decreases Room(table, parent), 0, |ids|
  {
    if ids == [] then []
    else
      assert IsChild(table, post, parent, ids[0]);
      [Node(ids[0], Build(table, post, Reply(ids[0])))] + Nodes(table, post, parent, ids[1..])
  }

  function Flat(trees: seq<Tree>): seq<nat> {
    if trees == [] then [] else [trees[0].id] + Flat(trees[0].replies) + Flat(trees[1..])
  }

  // ---- every comment once ----

  // The replies of replies of ... this parent.
  ghost predicate Under(table: seq<Comment>, post: nat, parent: Parent, x: nat)
    requires WellFormed(table)
    decreases x
  {
    x < |table| && table[x].post == post
    && (table[x].parent == parent || (table[x].parent.Reply? && Under(table, post, parent, table[x].parent.id)))
  }

  // The child of the parent through which x hangs.
  ghost function Branch(table: seq<Comment>, post: nat, parent: Parent, x: nat): nat
    requires WellFormed(table) && Under(table, post, parent, x)
    decreases x
  {
    if table[x].parent == parent then x else Branch(table, post, parent, table[x].parent.id)
  }

  lemma {:induction false} BelowParent(table: seq<Comment>, post: nat, c: nat, x: nat)
    requires WellFormed(table) && Under(table, post, Reply(c), x)
    ensures c < x
    decreases x
  {
    if table[x].parent != Reply(c) { BelowParent(table, post, c, table[x].parent.id); }
  }

  // x hangs below exactly one child of each of its ancestors.
  lemma {:induction false} OneBranch(table: seq<Comment>, post: nat, parent: Parent, c: nat, x: nat)
    requires WellFormed(table) && IsChild(table, post, parent, c)
    ensures c == x || Under(table, post, Reply(c), x) <==> Under(table, post, parent, x) && Branch(table, post, parent, x) == c
    decreases x
  {
    if x < |table| && table[x].post == post {
      if table[x].parent == parent {
        if Under(table, post, Reply(c), x) {
          BelowParent(table, post, c, x);
          if table[x].parent != Reply(c) {
            BelowParent(table, post, c, table[x].parent.id);
          }
        }
      } else if table[x].parent.Reply? {
        OneBranch(table, post, parent, c, table[x].parent.id);
      }
    }
  }

  lemma {:induction false} FlatConcat(t: Tree, rest: seq<Tree>, x: nat)
    ensures Times(Flat([t] + rest), x) == (if t.id == x then 1 else 0) + Times(Flat(t.replies), x) + Times(Flat(rest), x)
  {
    assert ([t] + rest)[1..] == rest;
    TimesConcat([t.id] + Flat(t.replies), Flat(rest), x);
    TimesConcat([t.id], Flat(t.replies), x);
    TimesOne(t.id, x);
  }

  lemma {:induction false} NodesTimes(table: seq<Comment>, post: nat, parent: Parent, ids: seq<nat>, x: nat)
    requires WellFormed(table) && forall y :: y in ids ==> IsChild(table, post, parent, y)
    ensures Times(Flat(Nodes(table, post, parent, ids)), x) ==
            if Under(table, post, parent, x) then Times(ids, Branch(table, post, parent, x)) else 0
    decreases Room(table, parent), 0, |ids|
  {
    if ids != [] {
      var c := ids[0];
      assert IsChild(table, post, parent, c);
      FlatConcat(Node(c, Build(table, post, Reply(c))), Nodes(table, post, parent, ids[1..]), x);
      BuildTimes(table, post, Reply(c), x);
      OneBranch(table, post, parent, c, x);
      NodesTimes(table, post, parent, ids[1..], x);
      if Under(table, post, Reply(c), x) { BelowParent(table, post, c, x); }
    }
  }

  // The tree under a parent holds exactly what hangs below it, once.
  lemma {:induction false} BuildTimes(table: seq<Comment>, post: nat, parent: Parent, x: nat)
    requires WellFormed(table)
    ensures Times(Flat(Build(table, post, parent)), x) == if Under(table, post, parent, x) then 1 else 0
    decreases Room(table, parent), 1, 0
  {
    LevelMembers(table, post, parent);
    NodesTimes(table, post, parent, Level(table, post, parent), x);
    if Under(table, post, parent, x) {
      BranchChild(table, post, parent, x);
      LevelOk(table, post, parent, Branch(table, post, parent, x));
    }
  }

  lemma {:induction false} BranchChild(table: seq<Comment>, post: nat, parent: Parent, x: nat)
    requires WellFormed(table) && Under(table, post, parent, x)
    ensures IsChild(table, post, parent, Branch(table, post, parent, x))
    decreases x
  {
    if table[x].parent != parent { BranchChild(table, post, parent, table[x].parent.id); }
  }

  // A comment is missing only below a blank parent id.
  lemma {:induction false} TopOrBlank(table: seq<Comment>, post: nat, x: nat)
    requires WellFormed(table) && x < |table| && table[x].post == post
    ensures Under(table, post, Top, x) != Under(table, post, Blank, x)
    decreases x
  {
    if table[x].parent.Reply? { TopOrBlank(table, post, table[x].parent.id); }
  }

  // The tree of a post is a permutation of its comments exactly when none of them was stored
  // with a blank parent id; it never holds a comment twice or one of another post.
  lemma TreeIsPermutation(table: seq<Comment>, post: nat)
    requires WellFormed(table)
    ensures (forall x: nat :: Times(Flat(Build(table, post, Top)), x) == if x < |table| && table[x].post == post then 1 else 0)
            <==> (forall x :: 0 <= x < |table| && table[x].post == post ==> table[x].parent != Blank)
    ensures forall x: nat :: Times(Flat(Build(table, post, Top)), x) <= if x < |table| && table[x].post == post then 1 else 0
  {
    forall x: nat
      ensures Times(Flat(Build(table, post, Top)), x) == if Under(table, post, Top, x) then 1 else 0
    {
      BuildTimes(table, post, Top, x);
    }
    if x: nat :| x < |table| && table[x].post == post && table[x].parent == Blank {
      TopOrBlank(table, post, x);
      assert Times(Flat(Build(table, post, Top)), x) == 0;
    } else {
      forall x: nat | x < |table| && table[x].post == post ensures Under(table, post, Top, x) {
        NoBlank(table, post, x);
      }
    }
  }

  // Of a forum that was filled by requests, each post's tree is complete exactly when no request
  // with a blank parent was stored for it.
  lemma FilledForum(requests: seq<Request>, post: nat)
    ensures var table := Filled([], requests);
            && WellFormed(table)
            && ((forall x: nat :: Times(Flat(Build(table, post, Top)), x) == if x < |table| && table[x].post == post then 1 else 0)
                <==> (forall r :: r in requests && r.post == post ==> r.parent != Blank))
  {
    FilledWellFormed([], requests);
    var table := Filled([], requests);
    TreeIsPermutation(table, post);
    FilledBlank([], requests, post);
    assert (forall r :: r in requests && r.post == post ==> r.parent != Blank) <==> !BlankIn(table, post);
  }

  predicate BlankIn(table: seq<Comment>, post: nat) {
    exists x :: 0 <= x < |table| && table[x].post == post && table[x].parent == Blank
  }

  // A blank parent is never refused.
  lemma {:induction false} FilledBlank(table: seq<Comment>, requests: seq<Request>, post: nat)
    ensures BlankIn(Filled(table, requests), post) <==>
              BlankIn(table, post) || exists r :: r in requests && r.post == post && r.parent == Blank
    decreases |requests|
  {
    if requests != [] {
      var r := requests[0];
      var added := Added(table, r.post, r.parent, r.now);
      var next := if added.Some? then added.value else table;
      AddedBlank(table, r, post);
      FilledBlank(next, requests[1..], post);
    }
  }

  lemma AddedBlank(table: seq<Comment>, r: Request, post: nat)
    ensures var added := Added(table, r.post, r.parent, r.now);
            BlankIn(if added.Some? then added.value else table, post) <==> BlankIn(table, post) || (r.post == post && r.parent == Blank)
  {
    var added := Added(table, r.post, r.parent, r.now);
    if added.Some? {
      assert added.value[|table|] == Comment(r.post, r.parent, r.now);
      if x :| 0 <= x < |table| && table[x].post == post && table[x].parent == Blank { assert added.value[x] == table[x]; }
    }
  }

  lemma {:induction false} NoBlank(table: seq<Comment>, post: nat, x: nat)
    requires WellFormed(table) && x < |table| && table[x].post == post
    requires forall y :: 0 <= y < |table| && table[y].post == post ==> table[y].parent != Blank
    ensures Under(table, post, Top, x)
    decreases x
  {
    if table[x].parent.Reply? { NoBlank(table, post, table[x].parent.id); }
  }

  // ---- siblings by time ----

  ghost predicate ByTime(table: seq<Comment>, trees: seq<Tree>)
    decreases trees
  {
    && (forall i, j :: 0 <= i < j < |trees| ==> Created(table, trees[i].id) <= Created(table, trees[j].id))
    && (forall i :: 0 <= i < |trees| ==> ByTime(table, trees[i].replies))
  }

  lemma {:induction false} NodesByTime(table: seq<Comment>, post: nat, parent: Parent, ids: seq<nat>)
    requires WellFormed(table) && forall y :: y in ids ==> IsChild(table, post, parent, y)
    ensures var n := Nodes(table, post, parent, ids);
            |n| == |ids| && forall i :: 0 <= i < |ids| ==> n[i].id == ids[i] && ByTime(table, n[i].replies)
    decreases Room(table, parent), 0, |ids|
  {
    if ids != [] {
      assert IsChild(table, post, parent, ids[0]);
      BuildByTime(table, post, Reply(ids[0]));
      NodesByTime(table, post, parent, ids[1..]);
    }
  }

  // Siblings stand in the order of their creation at every depth.
  lemma {:induction false} BuildByTime(table: seq<Comment>, post: nat, parent: Parent)
    requires WellFormed(table)
    ensures ByTime(table, Build(table, post, parent))
    decreases Room(table, parent), 1, 0
  {
    LevelMembers(table, post, parent);
    LevelOk(table, post, parent, 0);
    NodesByTime(table, post, parent, Level(table, post, parent));
  }

  // ---- pages ----

  // What a page query may see: the first-level comments in some order by time.
  ghost predicate Listing(table: seq<Comment>, post: nat, ids: seq<nat>) {
    InOrder(table, ids) && forall x: nat :: Times(ids, x) == if IsChild(table, post, Top, x) then 1 else 0
  }

  ghost predicate DistinctTimes(table: seq<Comment>, post: nat) {
    forall x, y :: 0 <= x < y < |table| && IsChild(table, post, Top, x) && IsChild(table, post, Top, y) ==>
      table[x].created != table[y].created
  }

  lemma TimesTwice(ids: seq<nat>, i: nat, j: nat)
    requires i < j < |ids| && ids[i] == ids[j]
    ensures Times(ids, ids[i]) >= 2
  {
    if i > 0 {
      TimesTwice(ids[1..], i - 1, j - 1);
    } else {
      assert ids[1..][j - 1] == ids[0];
      TimesIn(ids[1..], ids[0]);
    }
  }

  // With distinct times there is one order, so every query sees the same one.
  lemma {:induction false} OneOrder(table: seq<Comment>, a: seq<nat>, b: seq<nat>)
    requires InOrder(table, a) && InOrder(table, b)
    requires forall x: nat :: Times(a, x) == Times(b, x) <= 1
    requires forall x, y :: x in a && y in a && x != y ==> Created(table, x) != Created(table, y)
    ensures a == b
    decreases |a|
  {
    if a == [] {
      assert forall x: nat :: Times(b, x) == Times([], x) == 0;
      NoneListed(b);
    } else {
      TimesIn(a, a[0]);
      TimesIn(b, a[0]);
      TimesIn(b, b[0]);
      TimesIn(a, b[0]);
      assert Created(table, a[0]) <= Created(table, b[0]) by { FirstIsLeast(table, a, b[0]); }
      assert Created(table, b[0]) <= Created(table, a[0]) by { FirstIsLeast(table, b, a[0]); }
      assert a[0] == b[0];
      forall x: nat ensures Times(a[1..], x) == Times(b[1..], x) <= 1 {
        assert Times(a, x) == Times(b, x) <= 1;
      }
      OneOrder(table, a[1..], b[1..]);
      assert a == [a[0]] + a[1..] && b == [b[0]] + b[1..];
    }
  }

  lemma NoneListed(ids: seq<nat>)
    requires forall x: nat :: Times(ids, x) == 0
    ensures ids == []
  {
    assert ids != [] ==> Times(ids, ids[0]) > 0;
  }

  lemma FirstIsLeast(table: seq<Comment>, ids: seq<nat>, x: nat)
    requires InOrder(table, ids) && x in ids
    ensures Created(table, ids[0]) <= Created(table, x)
  {
  }

  function Slice(ids: seq<nat>, page: nat, size: nat): seq<nat>
    requires size > 0
  {
    var from := Min(page * size, |ids|);
    ids[from..Min(from + size, |ids|)]
  }

  // list_comments, for page numbers counted from 0.
  ghost function Page(table: seq<Comment>, post: nat, ids: seq<nat>, page: nat, size: nat): seq<Tree>
    requires WellFormed(table) && size > 0 && forall x :: x in ids ==> IsChild(table, post, Top, x)
  {
    Nodes(table, post, Top, Slice(ids, page, size))
  }

  lemma {:induction false} NodesConcat(table: seq<Comment>, post: nat, parent: Parent, a: seq<nat>, b: seq<nat>)
    requires WellFormed(table) && forall x :: x in a + b ==> IsChild(table, post, parent, x)
    ensures (forall x :: x in a ==> x in a + b) && (forall x :: x in b ==> x in a + b)
    ensures Nodes(table, post, parent, a + b) == Nodes(table, post, parent, a) + Nodes(table, post, parent, b)
    decreases |a|
  {
    hide IsChild, Build;
    if a == [] {
      assert a + b == b;
    } else {
      assert (a + b)[0] == a[0] && (a + b)[1..] == a[1..] + b;
      assert forall x :: x in a[1..] + b ==> x in a + b;
      NodesConcat(table, post, parent, a[1..], b);
    }
  }

  // The first n pages, each from a query of its own.
  ghost function Pages(table: seq<Comment>, post: nat, queries: seq<seq<nat>>, size: nat): seq<Tree>
    requires WellFormed(table) && size > 0
    requires forall q :: q in queries ==> forall x :: x in q ==> IsChild(table, post, Top, x)
    decreases |queries|
  {
    if queries == [] then []
    else
      var n := |queries| - 1;
      assert queries[n] in queries && forall q :: q in queries[..n] ==> q in queries;
      Pages(table, post, queries[..n], size) + Page(table, post, queries[n], n, size)
  }

  lemma ListingMembers(table: seq<Comment>, post: nat, ids: seq<nat>)
    requires Listing(table, post, ids)
    ensures forall x :: x in ids ==> IsChild(table, post, Top, x)
  {
    forall x | x in ids ensures IsChild(table, post, Top, x) {
      TimesIn(ids, x);
    }
  }

  lemma ListingIsLevel(table: seq<Comment>, post: nat, ids: seq<nat>)
    requires Listing(table, post, ids) && DistinctTimes(table, post)
    ensures ids == Level(table, post, Top)
  {
    var level := Level(table, post, Top);
    ListingMembers(table, post, ids);
    forall x: nat ensures Times(ids, x) == Times(level, x) <= 1 {
      LevelOk(table, post, Top, x);
    }
    LevelOk(table, post, Top, 0);
    forall x, y | x in ids && y in ids && x != y ensures Created(table, x) != Created(table, y) {
      assert IsChild(table, post, Top, if x < y then x else y) && IsChild(table, post, Top, if x < y then y else x);
    }
    OneOrder(table, ids, level);
  }

  lemma NextSlice(level: seq<nat>, n: nat, size: nat)
    requires size > 0
    ensures level[..Min((n + 1) * size, |level|)] == level[..Min(n * size, |level|)] + Slice(level, n, size)
  {
    assert (n + 1) * size == n * size + size;
  }

  // n pages show the first n * size first-level comments with all their replies.
  lemma {:induction false} PagesPrefix(table: seq<Comment>, post: nat, queries: seq<seq<nat>>, size: nat)
    requires WellFormed(table) && size > 0 && DistinctTimes(table, post)
    requires forall q :: q in queries ==> Listing(table, post, q)
    ensures forall q :: q in queries ==> forall x :: x in q ==> IsChild(table, post, Top, x)
    ensures forall x :: x in Level(table, post, Top) ==> IsChild(table, post, Top, x)
    ensures Pages(table, post, queries, size) ==
            Nodes(table, post, Top, Level(table, post, Top)[..Min(|queries| * size, |Level(table, post, Top)|)])
    decreases |queries|
  {
    hide Level, Listing, DistinctTimes, WellFormed, IsChild, Nodes, Slice;
    var level := Level(table, post, Top);
    LevelMembers(table, post, Top);
    forall q | q in queries ensures forall x :: x in q ==> IsChild(table, post, Top, x) {
      ListingMembers(table, post, q);
    }
    if queries == [] {
      NoNodes(table, post);
    } else {
      var n := |queries| - 1;
      var before := queries[..n];
      assert queries[n] in queries && forall q :: q in before ==> q in queries;
      PagesPrefix(table, post, before, size);
      ListingIsLevel(table, post, queries[n]);
      NextSlice(level, n, size);
      var a, b := level[..Min(n * size, |level|)], Slice(level, n, size);
      assert forall x :: x in a + b ==> x in level;
      NodesConcat(table, post, Top, a, b);
    }
  }

  lemma NoNodes(table: seq<Comment>, post: nat)
    requires WellFormed(table)
    ensures Nodes(table, post, Top, []) == []
  {
  }

  // With distinct times, all pages one after the other are the whole tree.
  lemma PagesAreTree(table: seq<Comment>, post: nat, queries: seq<seq<nat>>, size: nat)
    requires WellFormed(table) && size > 0 && DistinctTimes(table, post)
    requires forall q :: q in queries ==> Listing(table, post, q)
    requires |queries| * size >= |Level(table, post, Top)|
    ensures forall q :: q in queries ==> forall x :: x in q ==> IsChild(table, post, Top, x)
    ensures Pages(table, post, queries, size) == Build(table, post, Top)
  {
    PagesPrefix(table, post, queries, size);
    var level := Level(table, post, Top);
    assert level[..|level|] == level;
  }

  class Board {
    var comments: seq<Comment>

    constructor ()
      ensures comments == [] && WellFormed(comments)
    {
      comments := [];
    }

    // A reply is accepted only under an existing comment of the same post.
    method CreateComment(post: nat, parent: Parent, now: Time) returns (id: Option<nat>)
      requires WellFormed(comments)
      modifies this
      ensures WellFormed(comments)
      ensures id.None? <==> Added(old(comments), post, parent, now).None?
      ensures id.None? ==> comments == old(comments)
      ensures id.Some? ==> Added(old(comments), post, parent, now) == Some(comments) && id.value == |old(comments)|
      ensures id.Some? <==> (parent.Reply? ==> parent.id < |old(comments)| && old(comments)[parent.id].post == post)
      ensures id.Some? ==> comments == old(comments) + [Comment(post, parent, now)]
    {
      if parent.Reply? {
        if parent.id >= |comments| || comments[parent.id].post != post { return None; }
      }
      comments := comments + [Comment(post, parent, now)];
      return Some(|comments| - 1);
    }
  }
}
