/**
 * The comment forest that the comment section builds from the flat list of a
 * post's comments: a first pass makes one node per comment and files it in a
 * map under the comment's id; a second pass appends every node to the children
 * of the node its `parentId` names, or to the root list when that id is falsy
 * or names no fetched comment.
 *
 * The builder is a method over `Node` objects. Its result is specified by the
 * position lists `RootsUpTo` and `ChildrenUpTo`, and the lemmas below prove
 * what those lists promise: every comment is placed exactly once, the root and
 * orphan policy, and input order.
 */
module CommentForest {
  import opened Wrappers
  import opened JsText

  /** The author record loaded with each comment. */
  datatype Author = Author(id: string, name: Option<string>, email: Option<string>, image: Option<string>)

  /** A flat comment as fetched for one post; `parentId` is null or absent for a top-level comment. */
  datatype Comment = Comment(id: string, content: string, createdAt: int, parentId: Option<string>, author: Author)

  /** A forest node: the fields of its comment, unchanged, plus the list of its child nodes. */
  class Node {
    const record: Comment
    var children: seq<Node>

    constructor (c: Comment)
      ensures record == c && children == []
    {
      record := c;
      children := [];
    }
  }

  /** The `if (comment.parentId)` test: a parent reference that is present and not "". */
  predicate HasParentRef(c: Comment) {
    c.parentId.Some? && Truthy(c.parentId.value)
  }

  predicate HasId(cs: seq<Comment>, id: string) {
    exists k :: 0 <= k < |cs| && cs[k].id == id
  }

  predicate DistinctIds(cs: seq<Comment>) {
    forall i, j :: 0 <= i < j < |cs| ==> cs[i].id != cs[j].id
  }

  /** c is appended to the root list: it has no parent reference, or one naming no comment of cs. */
  predicate IsRoot(cs: seq<Comment>, c: Comment) {
    !HasParentRef(c) || !HasId(cs, c.parentId.value)
  }

  /** c is appended to the children of the node of the comment of cs whose id is p. */
  predicate IsChildOf(cs: seq<Comment>, c: Comment, p: string) {
    HasParentRef(c) && c.parentId.value == p && HasId(cs, p)
  }

  predicate Increasing(s: seq<nat>) {
    forall a, b :: 0 <= a < b < |s| ==> s[a] < s[b]
  }

  /** The positions, among the first n comments of cs, that the second pass appends to the root list. */
  function RootsUpTo(cs: seq<Comment>, n: nat): (r: seq<nat>)
    requires n <= |cs|
    ensures forall k :: 0 <= k < |r| ==> r[k] < n
  {
    if n == 0 then [] else RootsUpTo(cs, n - 1) + (if IsRoot(cs, cs[n - 1]) then [n - 1] else [])
  }

  /** The positions, among the first n comments of cs, that the second pass appends to the children of p. */
  function ChildrenUpTo(cs: seq<Comment>, n: nat, p: string): (r: seq<nat>)
    requires n <= |cs|
    ensures forall k :: 0 <= k < |r| ==> r[k] < n
  {
    if n == 0 then [] else ChildrenUpTo(cs, n - 1, p) + (if IsChildOf(cs, cs[n - 1], p) then [n - 1] else [])
  }

  /** The root list keeps input order: its positions strictly increase. */
  lemma {:induction false} RootsIncreasing(cs: seq<Comment>, n: nat)
    requires n <= |cs|
    ensures Increasing(RootsUpTo(cs, n))
  {
    if n > 0 {
      RootsIncreasing(cs, n - 1);
    }
  }

  /** Each children list keeps input order: its positions strictly increase. */
  lemma {:induction false} ChildrenIncreasing(cs: seq<Comment>, n: nat, p: string)
    requires n <= |cs|
    ensures Increasing(ChildrenUpTo(cs, n, p))
  {
    if n > 0 {
      ChildrenIncreasing(cs, n - 1, p);
    }
  }

  /** The nodes at the given positions. */
  function Select(nodes: seq<Node>, positions: seq<nat>): seq<Node>
    requires forall k :: 0 <= k < |positions| ==> positions[k] < |nodes|
  {
    seq(|positions|, k requires 0 <= k < |positions| => nodes[positions[k]])
  }

  lemma SelectAppend(nodes: seq<Node>, positions: seq<nat>, x: nat)
    requires forall k :: 0 <= k < |positions| ==> positions[k] < |nodes|
    requires x < |nodes|
    ensures Select(nodes, positions + [x]) == Select(nodes, positions) + [nodes[x]]
  {
  }

  /**
   * Builds the forest of cs. `nodes[i]` is the node made for `cs[i]`; the
   * roots and every node's children are the nodes at the positions the two
   * specification functions list.
   */
  method BuildForest(cs: seq<Comment>) returns (roots: seq<Node>, ghost nodes: seq<Node>)
    requires DistinctIds(cs)
    ensures |nodes| == |cs|
    ensures forall i :: 0 <= i < |cs| ==> fresh(nodes[i]) && nodes[i].record == cs[i]
    ensures roots == Select(nodes, RootsUpTo(cs, |cs|))
    ensures forall i {:trigger nodes[i].children} :: 0 <= i < |cs| ==> nodes[i].children == Select(nodes, ChildrenUpTo(cs, |cs|, cs[i].id))
  {
    if |cs| == 0 {
      return [], [];
    }
    var byId, made := IndexNodes(cs);
    roots := AttachNodes(cs, byId, made);
    nodes := made;
  }

  /** First pass: one fresh node per comment, filed under the comment's id. */
  method IndexNodes(cs: seq<Comment>) returns (byId: map<string, Node>, made: seq<Node>)
    requires DistinctIds(cs)
    ensures |made| == |cs|
    ensures forall k :: 0 <= k < |cs| ==> fresh(made[k]) && made[k].record == cs[k] && made[k].children == []
    ensures forall k :: 0 <= k < |cs| ==> cs[k].id in byId && byId[cs[k].id] == made[k]
    ensures forall id :: id in byId ==> HasId(cs, id)
  {
    byId, made := map[], [];
    var i := 0;
    while i < |cs|
      invariant 0 <= i <= |cs| && |made| == i
      invariant forall k :: 0 <= k < i ==> fresh(made[k]) && made[k].record == cs[k] && made[k].children == []
      invariant forall k :: 0 <= k < i ==> cs[k].id in byId && byId[cs[k].id] == made[k]
      invariant forall id :: id in byId ==> exists k :: 0 <= k < i && cs[k].id == id
    {
      var node := new Node(cs[i]);
      byId := byId[cs[i].id := node];
      made := made + [node];
      i := i + 1;
    }
  }

  /** The facts the first pass establishes about the map and the nodes. */
  ghost predicate Indexed(cs: seq<Comment>, byId: map<string, Node>, made: seq<Node>) {
    && DistinctIds(cs) && |made| == |cs|
    && (forall k :: 0 <= k < |cs| ==> made[k].record == cs[k])
    && (forall k :: 0 <= k < |cs| ==> cs[k].id in byId && byId[cs[k].id] == made[k])
    && (forall id :: id in byId ==> HasId(cs, id))
  }

  /** The second pass has handled the first n comments. */
  ghost predicate AttachedUpTo(cs: seq<Comment>, made: seq<Node>, roots: seq<Node>, n: nat)
    requires n <= |cs| == |made|
    reads made
  {
    && roots == Select(made, RootsUpTo(cs, n))
    && forall k {:trigger made[k].children} :: 0 <= k < |cs| ==> made[k].children == Select(made, ChildrenUpTo(cs, n, cs[k].id))
  }

  /** Second pass: append each node to the children of its parent's node, or to the roots. */
  method AttachNodes(cs: seq<Comment>, byId: map<string, Node>, made: seq<Node>) returns (roots: seq<Node>)
    requires Indexed(cs, byId, made)
    requires forall k {:trigger made[k].children} :: 0 <= k < |cs| ==> made[k].children == []
    modifies made
    ensures AttachedUpTo(cs, made, roots, |cs|)
  {
    roots := [];
    var i := 0;
    while i < |cs|
      invariant 0 <= i <= |cs|
      invariant AttachedUpTo(cs, made, roots, i)
    {
      roots := AttachOne(cs, byId, made, roots, i);
      i := i + 1;
    }
  }

  /** One step of the second pass: place comment i. */
  method AttachOne(cs: seq<Comment>, byId: map<string, Node>, made: seq<Node>, roots: seq<Node>, i: nat)
    returns (roots': seq<Node>)
    requires Indexed(cs, byId, made) && i < |cs|
    requires AttachedUpTo(cs, made, roots, i)
    modifies made
    ensures AttachedUpTo(cs, made, roots', i + 1)
  {
    var c := cs[i];
    var current := byId[c.id];
    assert current == made[i];
    if c.parentId.Some? && Truthy(c.parentId.value) {
      if c.parentId.value in byId {
        var parent := byId[c.parentId.value];
        ghost var j :| 0 <= j < |cs| && cs[j].id == c.parentId.value;
        AppendChild(cs, made, i, j);
        assert parent == made[j];
        parent.children := parent.children + [current];
        roots' := roots;
        forall k {:trigger made[k].children} | 0 <= k < |cs| && k != j
          ensures made[k].children == Select(made, ChildrenUpTo(cs, i + 1, cs[k].id))
        {
          assert made[k].record.id != made[j].record.id;
        }
      } else {
        AppendRoot(cs, made, i);
        roots' := roots + [current];
      }
    } else {
      AppendRoot(cs, made, i);
      roots' := roots + [current];
    }
  }

  /** When comment i names comment j as its parent, position i joins j's children and no other list. */
  lemma AppendChild(cs: seq<Comment>, made: seq<Node>, i: nat, j: nat)
    requires DistinctIds(cs) && |made| == |cs| && i < |cs| && j < |cs|
    requires HasParentRef(cs[i]) && cs[i].parentId.value == cs[j].id
    ensures RootsUpTo(cs, i + 1) == RootsUpTo(cs, i)
    ensures ChildrenUpTo(cs, i + 1, cs[j].id) == ChildrenUpTo(cs, i, cs[j].id) + [i]
    ensures Select(made, ChildrenUpTo(cs, i + 1, cs[j].id)) == Select(made, ChildrenUpTo(cs, i, cs[j].id)) + [made[i]]
    ensures forall k {:trigger ChildrenUpTo(cs, i + 1, cs[k].id)} :: 0 <= k < |cs| && k != j ==> ChildrenUpTo(cs, i + 1, cs[k].id) == ChildrenUpTo(cs, i, cs[k].id)
  {
    assert HasId(cs, cs[j].id);
    SelectAppend(made, ChildrenUpTo(cs, i, cs[j].id), i);
  }

  /** When comment i is a root, position i joins the root list and no children list. */
  lemma AppendRoot(cs: seq<Comment>, made: seq<Node>, i: nat)
    requires |made| == |cs| && i < |cs| && IsRoot(cs, cs[i])
    ensures Select(made, RootsUpTo(cs, i + 1)) == Select(made, RootsUpTo(cs, i)) + [made[i]]
    ensures forall k {:trigger ChildrenUpTo(cs, i + 1, cs[k].id)} :: 0 <= k < |cs| ==> ChildrenUpTo(cs, i + 1, cs[k].id) == ChildrenUpTo(cs, i, cs[k].id)
  {
    SelectAppend(made, RootsUpTo(cs, i), i);
  }

  /** A position is a root exactly when its comment's parent reference is falsy or names no comment of cs. */
  lemma {:induction false} RootMembership(cs: seq<Comment>, n: nat, j: nat)
    requires n <= |cs|
    ensures j in RootsUpTo(cs, n) <==> j < n && IsRoot(cs, cs[j])
  {
    if n > 0 {
      RootMembership(cs, n - 1, j);
    }
  }

  /** A position is among p's children exactly when its comment's parent reference is p and p is a fetched id. */
  lemma {:induction false} ChildMembership(cs: seq<Comment>, n: nat, p: string, j: nat)
    requires n <= |cs|
    ensures j in ChildrenUpTo(cs, n, p) <==> j < n && IsChildOf(cs, cs[j], p)
  {
    if n > 0 {
      ChildMembership(cs, n - 1, p, j);
    }
  }

  /** How many of the first m comments of cs the comment c is appended under as a child. */
  function ParentCount(cs: seq<Comment>, c: Comment, m: nat): nat
    requires m <= |cs|
  {
    if m == 0 then 0 else ParentCount(cs, c, m - 1) + (if IsChildOf(cs, c, cs[m - 1].id) then 1 else 0)
  }

  lemma {:induction false} ParentCountOfRoot(cs: seq<Comment>, c: Comment, m: nat)
    requires m <= |cs| && IsRoot(cs, c)
    ensures ParentCount(cs, c, m) == 0
  {
    if m > 0 {
      ParentCountOfRoot(cs, c, m - 1);
    }
  }

  lemma {:induction false} ParentCountOfChild(cs: seq<Comment>, c: Comment, j: nat, m: nat)
    requires DistinctIds(cs) && j < |cs| && m <= |cs|
    requires HasParentRef(c) && c.parentId.value == cs[j].id
    ensures ParentCount(cs, c, m) == if j < m then 1 else 0
  {
    if m > 0 {
      ParentCountOfChild(cs, c, j, m - 1);
      assert HasId(cs, cs[j].id);
    }
  }

  /** Under distinct ids a comment has exactly one place: none among the children lists when it is a root, one otherwise. */
  lemma {:induction false} ParentCountIsOneUnlessRoot(cs: seq<Comment>, c: Comment)
    requires DistinctIds(cs)
    ensures ParentCount(cs, c, |cs|) == if IsRoot(cs, c) then 0 else 1
  {
    if IsRoot(cs, c) {
      ParentCountOfRoot(cs, c, |cs|);
    } else {
      var j :| 0 <= j < |cs| && cs[j].id == c.parentId.value;
      ParentCountOfChild(cs, c, j, |cs|);
    }
  }

  /** The total length of the children lists, after n comments, of the first m comments' nodes. */
  function SumChildren(cs: seq<Comment>, n: nat, m: nat): nat
    requires n <= |cs| && m <= |cs|
  {
    if m == 0 then 0 else SumChildren(cs, n, m - 1) + |ChildrenUpTo(cs, n, cs[m - 1].id)|
  }

  lemma {:induction false} SumChildrenStep(cs: seq<Comment>, n: nat, m: nat)
    requires 0 < n <= |cs| && m <= |cs|
    ensures SumChildren(cs, n, m) == SumChildren(cs, n - 1, m) + ParentCount(cs, cs[n - 1], m)
  {
    if m > 0 {
      SumChildrenStep(cs, n, m - 1);
    }
  }

  lemma {:induction false} SumChildrenEmpty(cs: seq<Comment>, m: nat)
    requires m <= |cs|
    ensures SumChildren(cs, 0, m) == 0
  {
    if m > 0 {
      SumChildrenEmpty(cs, m - 1);
    }
  }

  /** After the first n comments, the root list and all children lists hold n placements between them. */
  lemma {:induction false} PlacementCountUpTo(cs: seq<Comment>, n: nat)
    requires DistinctIds(cs) && n <= |cs|
    ensures |RootsUpTo(cs, n)| + SumChildren(cs, n, |cs|) == n
  {
    if n == 0 {
      SumChildrenEmpty(cs, |cs|);
    } else {
      PlacementCountUpTo(cs, n - 1);
      SumChildrenStep(cs, n, |cs|);
      ParentCountIsOneUnlessRoot(cs, cs[n - 1]);
    }
  }

  /** No loss and no duplication: the forest holds exactly as many nodes as there are comments. */
  lemma PlacementCount(cs: seq<Comment>)
    requires DistinctIds(cs)
    ensures |RootsUpTo(cs, |cs|)| + SumChildren(cs, |cs|, |cs|) == |cs|
  {
    PlacementCountUpTo(cs, |cs|);
  }

  /**
   * Each comment is placed exactly once: in the root list exactly when it is
   * in no children list, and in the children of at most one node. (Every list
   * is increasing, so no list holds it twice.)
   */
  lemma PlacedOnce(cs: seq<Comment>, j: nat)
    requires DistinctIds(cs) && j < |cs|
    ensures j in RootsUpTo(cs, |cs|) <==> forall k :: 0 <= k < |cs| ==> j !in ChildrenUpTo(cs, |cs|, cs[k].id)
    ensures forall k1, k2 ::
              0 <= k1 < |cs| && 0 <= k2 < |cs| && j in ChildrenUpTo(cs, |cs|, cs[k1].id) && j in ChildrenUpTo(cs, |cs|, cs[k2].id)
              ==> k1 == k2
  {
    RootMembership(cs, |cs|, j);
    forall k | 0 <= k < |cs|
      ensures j in ChildrenUpTo(cs, |cs|, cs[k].id) <==> IsChildOf(cs, cs[j], cs[k].id)
    {
      ChildMembership(cs, |cs|, cs[k].id, j);
    }
    if !IsRoot(cs, cs[j]) {
      var k :| 0 <= k < |cs| && cs[k].id == cs[j].parentId.value;
      assert j in ChildrenUpTo(cs, |cs|, cs[k].id);
    }
  }

  /** A flat comment with the given id and parent reference, for the scenarios below. */
  function Sample(id: string, parentId: Option<string>): Comment {
    Comment(id, "text", 0, parentId, Author("u", None, None, None))
  }

  /** C1 (top level), C2 (reply to C1), C3 (top level): roots C1 and C3, and C1's only child is C2. */
  lemma ThreadScenario()
    ensures var cs := [Sample("c1", None), Sample("c2", Some("c1")), Sample("c3", None)];
      RootsUpTo(cs, 3) == [0, 2] && ChildrenUpTo(cs, 3, "c1") == [1]
      && ChildrenUpTo(cs, 3, "c2") == [] && ChildrenUpTo(cs, 3, "c3") == []
  {
    var cs := [Sample("c1", None), Sample("c2", Some("c1")), Sample("c3", None)];
    assert cs[0].id == "c1";
    assert IsRoot(cs, cs[0]) && !IsRoot(cs, cs[1]) && IsRoot(cs, cs[2]);
    assert RootsUpTo(cs, 1) == [0] && RootsUpTo(cs, 2) == [0];
    assert ChildrenUpTo(cs, 1, "c1") == [] && ChildrenUpTo(cs, 2, "c1") == [1];
  }

  /** A parent cycle A -> B -> A: neither is a root, and each is placed once, under the other. */
  lemma CycleScenario()
    ensures var cs := [Sample("a", Some("b")), Sample("b", Some("a"))];
      RootsUpTo(cs, 2) == [] && ChildrenUpTo(cs, 2, "b") == [0] && ChildrenUpTo(cs, 2, "a") == [1]
  {
    var cs := [Sample("a", Some("b")), Sample("b", Some("a"))];
    assert cs[0].id == "a" && cs[1].id == "b";
    assert !IsRoot(cs, cs[0]) && !IsRoot(cs, cs[1]);
  }
}
