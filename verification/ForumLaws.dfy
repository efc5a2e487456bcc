/** Which comments are accepted, where each one hangs in the tree, and what a page holds
    (routers/forum.py:133-158, 319-379, 627-660). */
module ForumLaws {
  import opened Common
  import opened Forum

  // A first-level comment, one with a blank parent, or a reply to a comment of the same post is stored
  // last, with its parent and time; any other request stores nothing.
  lemma StoredIff(table: seq<Comment>, post: nat, parent: Parent, now: Time)
    ensures var added := Added(table, post, parent, now);
            && (added.Some? <==> parent == Top || parent == Blank
                                 || (parent.Reply? && parent.id < |table| && table[parent.id].post == post))
            && (added.Some? ==>
                  && |added.value| == |table| + 1 && added.value[..|table|] == table
                  && added.value[|table|] == Comment(post, parent, now))
  {
  }

  // Every node stands under its own parent, every child of a parent stands there once, and siblings
  // are in the order of their creation.
  ghost predicate Nested(table: seq<Comment>, post: nat, parent: Parent, trees: seq<Tree>)
    decreases trees
  {
    && (forall i :: 0 <= i < |trees| ==>
          && trees[i].id < |table| && table[trees[i].id].post == post && table[trees[i].id].parent == parent
          && Nested(table, post, Reply(trees[i].id), trees[i].replies))
    && (forall i, j :: 0 <= i < j < |trees| ==>
          trees[i].id != trees[j].id && Created(table, trees[i].id) <= Created(table, trees[j].id))
    && (forall x :: 0 <= x < |table| && table[x].post == post && table[x].parent == parent ==>
          exists i :: 0 <= i < |trees| && trees[i].id == x)
  }

  lemma {:induction false} NodesNested(table: seq<Comment>, post: nat, parent: Parent, ids: seq<nat>)
    requires WellFormed(table) && forall y :: y in ids ==> IsChild(table, post, parent, y)
    ensures var n := Nodes(table, post, parent, ids);
            |n| == |ids| && forall i :: 0 <= i < |ids| ==> n[i].id == ids[i] && Nested(table, post, Reply(ids[i]), n[i].replies)
    decreases Room(table, parent), 0, |ids|
  {
    if ids != [] {
      assert IsChild(table, post, parent, ids[0]);
      BuildNested(table, post, Reply(ids[0]));
      NodesNested(table, post, parent, ids[1..]);
    }
  }

  lemma ListedOnce(ids: seq<nat>, i: nat, j: nat)
    requires i < j < |ids| && Times(ids, ids[i]) <= 1
    ensures ids[i] != ids[j]
  {
    if ids[i] == ids[j] { TimesTwice(ids, i, j); }
  }

  // The tree of a post, and of every comment in it, is nested as the comments name their parents.
  lemma {:induction false} BuildNested(table: seq<Comment>, post: nat, parent: Parent)
    requires WellFormed(table)
    ensures Nested(table, post, parent, Build(table, post, parent))
    decreases Room(table, parent), 1, 0
  {
    LevelMembers(table, post, parent);
    var level := Level(table, post, parent);
    NodesNested(table, post, parent, level);
    var trees := Build(table, post, parent);
    forall i, j | 0 <= i < j < |trees|
      ensures trees[i].id != trees[j].id && Created(table, trees[i].id) <= Created(table, trees[j].id)
    {
      LevelOk(table, post, parent, level[i]);
      ListedOnce(level, i, j);
    }
    forall x | 0 <= x < |table| && table[x].post == post && table[x].parent == parent
      ensures exists i :: 0 <= i < |trees| && trees[i].id == x
    {
      LevelOk(table, post, parent, x);
      var i :| 0 <= i < |level| && level[i] == x;
      assert trees[i].id == x;
    }
    forall i | 0 <= i < |trees| ensures IsChild(table, post, parent, trees[i].id) {
      assert level[i] in level;
    }
  }

  lemma SliceHolds(ids: seq<nat>, page: nat, size: nat, from: nat)
    requires size > 0 && from == page * size
    ensures |Slice(ids, page, size)| == (if from >= |ids| then 0 else Min(size, |ids| - from))
    ensures forall i :: 0 <= i < |Slice(ids, page, size)| ==> from + i < |ids| && Slice(ids, page, size)[i] == ids[from + i]
  {
  }

  // A page holds the next comments of its query, at most as many as asked for and fewer only at the end,
  // each with all its replies.
  lemma PageHolds(table: seq<Comment>, post: nat, ids: seq<nat>, page: nat, size: nat)
    requires WellFormed(table) && size > 0 && forall x :: x in ids ==> IsChild(table, post, Top, x)
    ensures var (p, from) := (Page(table, post, ids, page, size), page * size);
            && |p| == (if from >= |ids| then 0 else Min(size, |ids| - from))
            && forall i :: 0 <= i < |p| ==>
                 from + i < |ids| && p[i].id == ids[from + i] && Nested(table, post, Reply(p[i].id), p[i].replies)
  {
    hide WellFormed, IsChild, Nodes, Nested, Slice;
    SliceHolds(ids, page, size, page * size);
    SliceMembers(ids, page, size);
    NodesNested(table, post, Top, Slice(ids, page, size));
  }

  lemma SliceMembers(ids: seq<nat>, page: nat, size: nat)
    requires size > 0
    ensures forall x :: x in Slice(ids, page, size) ==> x in ids
  {
  }
}
