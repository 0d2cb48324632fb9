/** The waterfall's span forest: `buildTree` over parent pointers that may dangle or cycle. */
module SpanForest {
  import opened Wrappers

  datatype Span = Span(id: string, parent: Option<string>)

  /** Distinct span ids in order of first appearance: the key order of the map. */
  function Keys(spans: seq<Span>): seq<string> {
    if spans == [] then []
    else
      var front := Keys(spans[..|spans| - 1]);
      front + if spans[|spans| - 1].id in front then [] else [spans[|spans| - 1].id]
  }

  /** The parent recorded by the last span with this id; an empty parent id counts as none. */
  function ParentOf(spans: seq<Span>, id: string): Option<string> {
    if spans == [] then None
    else
      var last := spans[|spans| - 1];
      if last.id != id then ParentOf(spans[..|spans| - 1], id)
      else if last.parent == Some("") then None else last.parent
  }

  predicate IsRoot(spans: seq<Span>, id: string) {
    ParentOf(spans, id).None? || ParentOf(spans, id).value !in Keys(spans)
  }

  function Roots(spans: seq<Span>, keys: seq<string>): seq<string> {
    if keys == [] then []
    else
      var n := |keys| - 1;
      Roots(spans, keys[..n]) + if IsRoot(spans, keys[n]) then [keys[n]] else []
  }

  function Children(spans: seq<Span>, keys: seq<string>, id: string): seq<string> {
    if keys == [] then []
    else
      var n := |keys| - 1;
      Children(spans, keys[..n], id)
        + if !IsRoot(spans, keys[n]) && ParentOf(spans, keys[n]) == Some(id) then [keys[n]] else []
  }

  /** All children of a list of nodes, in order. */
  function AllChildren(spans: seq<Span>, ids: seq<string>): seq<string> {
    if ids == [] then [] else Children(spans, Keys(spans), ids[0]) + AllChildren(spans, ids[1..])
  }

  /** The forest in display order (a node, its subtrees, its later siblings), `depth` levels deep. */
  function Flatten(spans: seq<Span>, ids: seq<string>, depth: nat): seq<string>
    decreases depth, |ids|
  {
    if depth == 0 || ids == [] then []
    else
      [ids[0]] + Flatten(spans, Children(spans, Keys(spans), ids[0]), depth - 1) + Flatten(spans, ids[1..], depth)
  }

  function Count(s: seq<string>, x: string): nat {
    if s == [] then 0 else (if s[0] == x then 1 else 0) + Count(s[1..], x)
  }

  /** Following parents from `x`, a root is met after exactly `k` hops. */
  predicate RootAfter(spans: seq<Span>, x: string, k: nat)
    decreases k
  {
    if k == 0 then IsRoot(spans, x)
    else !IsRoot(spans, x) && RootAfter(spans, ParentOf(spans, x).value, k - 1)
  }

  /** The parent chain of `x` ends. */
  ghost predicate Rooted(spans: seq<Span>, x: string) {
    exists k: nat :: RootAfter(spans, x, k)
  }

  function Ancestor(spans: seq<Span>, x: string, k: nat): string
    decreases k
  {
    if k == 0 then x
    else if ParentOf(spans, x).None? then x
    else Ancestor(spans, ParentOf(spans, x).value, k - 1)
  }

  /** `x` is on or below a parent cycle: an ancestor repeats, and no root comes before that. */
  ghost predicate BelowCycle(spans: seq<Span>, x: string) {
    exists i: nat, j: nat :: i < j && Ancestor(spans, x, i) == Ancestor(spans, x, j)
      && forall k: nat :: k <= j ==> !IsRoot(spans, Ancestor(spans, x, k))
  }

  /** The parent is what the last span with the id names; a span without one, or naming no span, is a root. */
  lemma {:induction false} ParentMeaning(spans: seq<Span>, i: nat)
    requires i < |spans| && forall j :: i < j < |spans| ==> spans[j].id != spans[i].id
    ensures ParentOf(spans, spans[i].id) == if spans[i].parent == Some("") then None else spans[i].parent
    ensures IsRoot(spans, spans[i].id) <==>
      spans[i].parent.None? || spans[i].parent == Some("") || !Occurs(spans, spans[i].parent.value)
  {
    LastParent(spans, i);
    if ParentOf(spans, spans[i].id).Some? {
      KeysOnce(spans, ParentOf(spans, spans[i].id).value);
      CountMember(Keys(spans), ParentOf(spans, spans[i].id).value);
    }
  }

  lemma {:induction false} LastParent(spans: seq<Span>, i: nat)
    requires i < |spans| && forall j :: i < j < |spans| ==> spans[j].id != spans[i].id
    ensures ParentOf(spans, spans[i].id) == if spans[i].parent == Some("") then None else spans[i].parent
  {
    if i < |spans| - 1 {
      var n := |spans| - 1;
      assert spans[n].id != spans[i].id;
      LastParent(spans[..n], i);
    }
  }

  // ------------------------------------------------------------------ counting

  lemma {:induction false} CountConcat(a: seq<string>, b: seq<string>, x: string)
    ensures Count(a + b, x) == Count(a, x) + Count(b, x)
  {
    if a == [] {
      assert a + b == b;
    } else {
      assert (a + b)[0] == a[0] && (a + b)[1..] == a[1..] + b;
      CountConcat(a[1..], b, x);
    }
  }

  lemma CountAppend(a: seq<string>, y: string, x: string)
    ensures Count(a + [y], x) == Count(a, x) + if y == x then 1 else 0
  {
    CountConcat(a, [y], x);
  }

  lemma {:induction false} CountMember(s: seq<string>, x: string)
    ensures Count(s, x) > 0 <==> x in s
  {
    if s != [] {
      CountMember(s[1..], x);
    }
  }

  ghost predicate Occurs(spans: seq<Span>, x: string) {
    exists i :: 0 <= i < |spans| && spans[i].id == x
  }

  lemma OccursInFront(spans: seq<Span>, x: string)
    requires spans != []
    ensures Occurs(spans, x) <==> Occurs(spans[..|spans| - 1], x) || spans[|spans| - 1].id == x
  {
    var n := |spans| - 1;
    if i :| 0 <= i < n && spans[..n][i].id == x {
      assert spans[i].id == x;
    }
    if i :| 0 <= i < |spans| && spans[i].id == x {
      assert i < n ==> spans[..n][i].id == x;
    }
  }

  lemma {:induction false} KeysOnce(spans: seq<Span>, x: string)
    ensures Count(Keys(spans), x) == if Occurs(spans, x) then 1 else 0
    ensures |Keys(spans)| <= |spans|
  {
    if spans != [] {
      var n := |spans| - 1;
      var front := Keys(spans[..n]);
      KeysOnce(spans[..n], x);
      OccursInFront(spans, x);
      CountMember(front, spans[n].id);
      CountConcat(front, if spans[n].id in front then [] else [spans[n].id], x);
    }
  }

  lemma {:induction false} RootsCount(spans: seq<Span>, keys: seq<string>, x: string)
    ensures Count(Roots(spans, keys), x) == if IsRoot(spans, x) then Count(keys, x) else 0
  {
    if keys != [] {
      var n := |keys| - 1;
      RootsCount(spans, keys[..n], x);
      CountAppend(keys[..n], keys[n], x);
      assert keys[..n] + [keys[n]] == keys;
      CountConcat(Roots(spans, keys[..n]), if IsRoot(spans, keys[n]) then [keys[n]] else [], x);
    }
  }

  lemma {:induction false} ChildrenCount(spans: seq<Span>, keys: seq<string>, id: string, x: string)
    ensures Count(Children(spans, keys, id), x)
      == if !IsRoot(spans, x) && ParentOf(spans, x) == Some(id) then Count(keys, x) else 0
  {
    if keys != [] {
      var n := |keys| - 1;
      ChildrenCount(spans, keys[..n], id, x);
      CountAppend(keys[..n], keys[n], x);
      assert keys[..n] + [keys[n]] == keys;
      CountConcat(Children(spans, keys[..n], id),
                  if !IsRoot(spans, keys[n]) && ParentOf(spans, keys[n]) == Some(id) then [keys[n]] else [], x);
    }
  }

  /** A node occurs among the children of a list as often as its parent occurs in the list. */
  lemma {:induction false} AllChildrenCount(spans: seq<Span>, ids: seq<string>, x: string)
    ensures Count(AllChildren(spans, ids), x)
      == if IsRoot(spans, x) || x !in Keys(spans) then 0 else Count(ids, ParentOf(spans, x).value)
  {
    KeysOnce(spans, x);
    CountMember(Keys(spans), x);
    if ids != [] {
      AllChildrenCount(spans, ids[1..], x);
      ChildrenCount(spans, Keys(spans), ids[0], x);
      CountConcat(Children(spans, Keys(spans), ids[0]), AllChildren(spans, ids[1..]), x);
    }
  }

  lemma {:induction false} AllChildrenConcat(spans: seq<Span>, a: seq<string>, b: seq<string>)
    ensures AllChildren(spans, a + b) == AllChildren(spans, a) + AllChildren(spans, b)
  {
    if a == [] {
      assert a + b == b;
    } else {
      assert (a + b)[0] == a[0] && (a + b)[1..] == a[1..] + b;
      AllChildrenConcat(spans, a[1..], b);
    }
  }

  lemma {:induction false} FlattenConcat(spans: seq<Span>, a: seq<string>, b: seq<string>, depth: nat, x: string)
    ensures Count(Flatten(spans, a + b, depth), x) == Count(Flatten(spans, a, depth), x) + Count(Flatten(spans, b, depth), x)
    decreases |a|
  {
    if a == [] {
      assert a + b == b;
    } else if depth > 0 {
      assert (a + b)[0] == a[0] && (a + b)[1..] == a[1..] + b;
      FlattenConcat(spans, a[1..], b, depth, x);
      var own := [a[0]] + Flatten(spans, Children(spans, Keys(spans), a[0]), depth - 1);
      CountConcat(own, Flatten(spans, a[1..] + b, depth), x);
      CountConcat(own, Flatten(spans, a[1..], depth), x);
    }
  }

  /** Display order or level by level, the same nodes occur equally often. */
  lemma {:induction false} FlattenByLevel(spans: seq<Span>, ids: seq<string>, depth: nat, x: string)
    requires depth > 0
    ensures Count(Flatten(spans, ids, depth), x)
         == Count(ids, x) + Count(Flatten(spans, AllChildren(spans, ids), depth - 1), x)
    decreases |ids|
  {
    if ids != [] {
      var kids := Children(spans, Keys(spans), ids[0]);
      FlattenByLevel(spans, ids[1..], depth, x);
      CountConcat([ids[0]] + Flatten(spans, kids, depth - 1), Flatten(spans, ids[1..], depth), x);
      CountConcat([ids[0]], Flatten(spans, kids, depth - 1), x);
      FlattenConcat(spans, kids, AllChildren(spans, ids[1..]), depth - 1, x);
    }
  }

  function Level(spans: seq<Span>, k: nat): seq<string> {
    if k == 0 then Roots(spans, Keys(spans)) else AllChildren(spans, Level(spans, k - 1))
  }

  /** A key stands on level `k` exactly once if its chain ends after `k` hops, else not at all. */
  lemma {:induction false} LevelCount(spans: seq<Span>, k: nat, x: string)
    ensures Count(Level(spans, k), x) == if x in Keys(spans) && RootAfter(spans, x, k) then 1 else 0
  {
    if k == 0 {
      CountMember(Keys(spans), x);
      KeysOnce(spans, x);
      RootsCount(spans, Keys(spans), x);
    } else if !IsRoot(spans, x) {
      LevelCount(spans, k - 1, ParentOf(spans, x).value);
      NextLevel(spans, k, x);
    } else {
      NextLevel(spans, k, x);
    }
  }

  lemma NextLevel(spans: seq<Span>, k: nat, x: string)
    requires k > 0
    ensures Count(Level(spans, k), x)
      == if IsRoot(spans, x) || x !in Keys(spans) then 0 else Count(Level(spans, k - 1), ParentOf(spans, x).value)
  {
    AllChildrenCount(spans, Level(spans, k - 1), x);
  }

  function LevelsCount(spans: seq<Span>, from: nat, depth: nat, x: string): nat
    decreases depth
  {
    if depth == 0 then 0 else Count(Level(spans, from), x) + LevelsCount(spans, from + 1, depth - 1, x)
  }

  lemma {:induction false} FlattenLevels(spans: seq<Span>, from: nat, depth: nat, x: string)
    ensures Count(Flatten(spans, Level(spans, from), depth), x) == LevelsCount(spans, from, depth, x)
    decreases depth
  {
    if depth > 0 {
      FlattenByLevel(spans, Level(spans, from), depth, x);
      FlattenLevels(spans, from + 1, depth - 1, x);
    }
  }

  lemma {:induction false} RootAfterIsUnique(spans: seq<Span>, x: string, j: nat, k: nat)
    requires RootAfter(spans, x, j) && RootAfter(spans, x, k)
    ensures j == k
    decreases k
  {
    if j > 0 && k > 0 {
      RootAfterIsUnique(spans, ParentOf(spans, x).value, j - 1, k - 1);
    }
  }

  lemma LevelAt(spans: seq<Span>, level: nat, x: string, k: nat)
    requires x in Keys(spans) && RootAfter(spans, x, k)
    ensures Count(Level(spans, level), x) == if level == k then 1 else 0
  {
    LevelCount(spans, level, x);
    if RootAfter(spans, x, level) {
      RootAfterIsUnique(spans, x, level, k);
    }
  }

  lemma {:induction false} LevelsOf(spans: seq<Span>, from: nat, depth: nat, x: string, k: nat)
    requires x in Keys(spans) && RootAfter(spans, x, k)
    ensures LevelsCount(spans, from, depth, x) == if from <= k < from + depth then 1 else 0
    decreases depth
  {
    hide Level, RootAfter, Count, Keys;
    if depth > 0 {
      LevelsOf(spans, from + 1, depth - 1, x, k);
      LevelAt(spans, from, x, k);
    }
  }

  lemma {:induction false} NoLevels(spans: seq<Span>, from: nat, depth: nat, x: string)
    requires x !in Keys(spans) || !Rooted(spans, x)
    ensures LevelsCount(spans, from, depth, x) == 0
    decreases depth
  {
    if depth > 0 {
      NoLevels(spans, from + 1, depth - 1, x);
      LevelCount(spans, from, x);
    }
  }

  // ------------------------------------------------------------------ chains are short

  lemma {:induction false} ChainElements(spans: seq<Span>, x: string, k: nat, j: nat)
    requires RootAfter(spans, x, k) && j <= k
    ensures x in Keys(spans) ==> Ancestor(spans, x, j) in Keys(spans)
    ensures RootAfter(spans, Ancestor(spans, x, j), k - j)
    decreases j
  {
    if j > 0 {
      ChainElements(spans, ParentOf(spans, x).value, k - 1, j - 1);
    }
  }

  lemma {:induction false} EndlessChain(spans: seq<Span>, x: string, j: nat)
    requires x in Keys(spans) && forall k: nat :: k <= j ==> !RootAfter(spans, x, k)
    ensures !IsRoot(spans, Ancestor(spans, x, j)) && Ancestor(spans, x, j) in Keys(spans)
    decreases j
  {
    assert !RootAfter(spans, x, 0);
    if j > 0 {
      var p := ParentOf(spans, x).value;
      forall k: nat | k <= j - 1 ensures !RootAfter(spans, p, k) {
        assert !RootAfter(spans, x, k + 1);
      }
      EndlessChain(spans, p, j - 1);
    }
  }

  lemma {:induction false} DistinctInSet(s: seq<string>, keys: set<string>)
    requires forall i :: 0 <= i < |s| ==> s[i] in keys
    requires forall i, j :: 0 <= i < j < |s| ==> s[i] != s[j]
    ensures |s| <= |keys|
  {
    if s != [] {
      var n := |s| - 1;
      DistinctInSet(s[..n], keys - {s[n]});
    }
  }

  lemma {:induction false} SetOfSeq(s: seq<string>)
    ensures |set x | x in s| <= |s|
  {
    if s == [] {
      assert (set x | x in s) == {};
    } else {
      var n := |s| - 1;
      SetOfSeq(s[..n]);
      assert s == s[..n] + [s[n]];
      assert (set x | x in s) == (set x | x in s[..n]) + {s[n]};
    }
  }

  /** A chain that ends visits distinct keys, so it has fewer hops than there are keys. */
  lemma ChainIsShort(spans: seq<Span>, x: string, k: nat)
    requires x in Keys(spans) && RootAfter(spans, x, k)
    ensures k < |Keys(spans)|
  {
    var chain := seq(k + 1, j requires 0 <= j <= k => Ancestor(spans, x, j));
    var keys := set y | y in Keys(spans);
    forall j | 0 <= j <= k ensures chain[j] in keys {
      ChainElements(spans, x, k, j);
    }
    forall i, j | 0 <= i < j <= k ensures chain[i] != chain[j] {
      ChainElements(spans, x, k, i);
      ChainElements(spans, x, k, j);
      if chain[i] == chain[j] {
        RootAfterIsUnique(spans, chain[i], k - i, k - j);
      }
    }
    DistinctInSet(chain, keys);
    SetOfSeq(Keys(spans));
  }

  /** A chain that ends has met its root before any ancestor repeats. */
  lemma RootedAvoidsCycles(spans: seq<Span>, x: string, k: nat, i: nat, j: nat)
    requires RootAfter(spans, x, k) && i < j && Ancestor(spans, x, i) == Ancestor(spans, x, j)
    ensures k <= j && IsRoot(spans, Ancestor(spans, x, k))
  {
    ChainElements(spans, x, k, k);
    if j < k {
      ChainElements(spans, x, k, i);
      ChainElements(spans, x, k, j);
      RootAfterIsUnique(spans, Ancestor(spans, x, i), k - i, k - j);
    }
  }

  /** A parent chain ends exactly when it never runs into a cycle. */
  lemma RootedOrBelowCycle(spans: seq<Span>, x: string)
    requires x in Keys(spans)
    ensures Rooted(spans, x) <==> !BelowCycle(spans, x)
  {
    if Rooted(spans, x) && BelowCycle(spans, x) {
      var k: nat :| RootAfter(spans, x, k);
      var i: nat, j: nat :| i < j && Ancestor(spans, x, i) == Ancestor(spans, x, j)
        && forall k: nat :: k <= j ==> !IsRoot(spans, Ancestor(spans, x, k));
      RootedAvoidsCycles(spans, x, k, i, j);
    }
    if !Rooted(spans, x) {
      var n := |Keys(spans)|;
      var chain := seq(n + 1, j requires 0 <= j <= n => Ancestor(spans, x, j));
      var keys := set y | y in Keys(spans);
      forall j: nat ensures !IsRoot(spans, Ancestor(spans, x, j)) && Ancestor(spans, x, j) in Keys(spans) {
        EndlessChain(spans, x, j);
      }
      SetOfSeq(Keys(spans));
      if forall i, j :: 0 <= i < j < |chain| ==> chain[i] != chain[j] {
        DistinctInSet(chain, keys);
      }
      var i, j :| 0 <= i < j < |chain| && chain[i] == chain[j];
      assert Ancestor(spans, x, i) == Ancestor(spans, x, j);
    }
  }

  /**
   * The displayed forest holds each distinct span id exactly once if its parent chain ends, and
   * no id on or below a parent cycle.
   */
  lemma ForestHoldsRootedOnce(spans: seq<Span>, x: string)
    ensures Count(Flatten(spans, Roots(spans, Keys(spans)), |Keys(spans)|), x)
         == if x in Keys(spans) && Rooted(spans, x) then 1 else 0
    ensures x in Keys(spans) && BelowCycle(spans, x) ==>
      Count(Flatten(spans, Roots(spans, Keys(spans)), |Keys(spans)|), x) == 0
  {
    if x in Keys(spans) { RootedOrBelowCycle(spans, x); }
    FlattenLevels(spans, 0, |Keys(spans)|, x);
    if x in Keys(spans) && Rooted(spans, x) {
      var k: nat :| RootAfter(spans, x, k);
      ChainIsShort(spans, x, k);
      LevelsOf(spans, 0, |Keys(spans)|, x, k);
    } else {
      NoLevels(spans, 0, |Keys(spans)|, x);
    }
  }

  lemma {:induction false} CountsMakeMultiset(a: seq<string>, b: seq<string>)
    requires forall x :: Count(a, x) == Count(b, x)
    ensures multiset(a) == multiset(b)
  {
    forall x ensures multiset(a)[x] == multiset(b)[x] {
      CountIsMultiplicity(a, x);
      CountIsMultiplicity(b, x);
    }
  }

  lemma {:induction false} CountIsMultiplicity(s: seq<string>, x: string)
    ensures multiset(s)[x] == Count(s, x)
  {
    if s != [] {
      CountIsMultiplicity(s[1..], x);
      assert s == [s[0]] + s[1..];
    }
  }

  /** With acyclic parents the flattened forest is a permutation of the distinct ids. */
  lemma AcyclicForestIsPermutation(spans: seq<Span>)
    requires forall x :: x in Keys(spans) ==> !BelowCycle(spans, x)
    ensures multiset(Flatten(spans, Roots(spans, Keys(spans)), |Keys(spans)|)) == multiset(Keys(spans))
  {
    var flat := Flatten(spans, Roots(spans, Keys(spans)), |Keys(spans)|);
    forall x ensures Count(flat, x) == Count(Keys(spans), x) {
      ForestHoldsRootedOnce(spans, x);
      KeysOnce(spans, x);
      CountMember(Keys(spans), x);
      if x in Keys(spans) { RootedOrBelowCycle(spans, x); }
    }
    CountsMakeMultiset(flat, Keys(spans));
  }

  // ------------------------------------------------------------------ building it in place

  class SpanNode {
    const id: string
    const parent: Option<string>
    var children: seq<SpanNode>

    constructor (s: Span)
      ensures id == s.id && parent == s.parent && children == []
    {
      id, parent, children := s.id, s.parent, [];
    }
  }

  function Ids(nodes: seq<SpanNode>): seq<string> {
    seq(|nodes|, i requires 0 <= i < |nodes| => nodes[i].id)
  }

  /** One node per id, carrying what the last span with that id said. */
  ghost predicate NodesOk(spans: seq<Span>, nodes: map<string, SpanNode>) {
    && (forall id :: id in nodes <==> id in Keys(spans))
    && (forall id :: id in nodes ==> nodes[id].id == id)
    && (forall id :: id in nodes ==>
          ParentOf(spans, id) == if nodes[id].parent == Some("") then None else nodes[id].parent)
  }

  ghost predicate AreNodes(list: seq<SpanNode>, nodes: map<string, SpanNode>) {
    forall i :: 0 <= i < |list| ==> list[i].id in nodes && nodes[list[i].id] == list[i]
  }

  lemma NodeAdded(spans: seq<Span>, nodes: map<string, SpanNode>, span: Span, node: SpanNode)
    requires NodesOk(spans, nodes) && node.id == span.id && node.parent == span.parent
    ensures NodesOk(spans + [span], nodes[span.id := node])
    ensures Keys(spans + [span]) == Keys(spans) + if span.id in nodes then [] else [span.id]
  {
    assert (spans + [span])[..|spans|] == spans;
  }

  /** First loop: the map, in which a repeated id replaces its node but keeps its place. */
  method CollectNodes(spans: seq<Span>) returns (nodes: map<string, SpanNode>, order: seq<string>)
    ensures order == Keys(spans) && NodesOk(spans, nodes)
    ensures forall id :: id in nodes ==> fresh(nodes[id]) && nodes[id].children == []
  {
    nodes, order := map[], [];
    for i := 0 to |spans|
      invariant order == Keys(spans[..i]) && NodesOk(spans[..i], nodes)
      invariant forall id :: id in nodes ==> fresh(nodes[id]) && nodes[id].children == []
    {
      var span := spans[i];
      assert spans[..i + 1] == spans[..i] + [span];
      var node := new SpanNode(span);
      NodeAdded(spans[..i], nodes, span, node);
      if span.id !in nodes {
        order := order + [span.id];
      }
      nodes := nodes[span.id := node];
    }
    assert spans[..|spans|] == spans;
  }

  ghost predicate Hung(spans: seq<Span>, nodes: map<string, SpanNode>, done: seq<string>, id: string)
    requires id in nodes
    reads nodes[id]
  {
    Ids(nodes[id].children) == Children(spans, done, id) && AreNodes(nodes[id].children, nodes)
  }

  ghost predicate AllHung(spans: seq<Span>, nodes: map<string, SpanNode>, done: seq<string>)
    reads set id | id in nodes :: nodes[id]
  {
    forall id {:trigger Hung(spans, nodes, done, id)} :: id in nodes ==> Hung(spans, nodes, done, id)
  }

  lemma IdsAppend(list: seq<SpanNode>, node: SpanNode, nodes: map<string, SpanNode>)
    requires AreNodes(list, nodes) && node.id in nodes && nodes[node.id] == node
    ensures Ids(list + [node]) == Ids(list) + [node.id] && AreNodes(list + [node], nodes)
  {
  }

  lemma OneMoreKey(spans: seq<Span>, done: seq<string>, k: string, id: string)
    ensures Roots(spans, done + [k]) == Roots(spans, done) + if IsRoot(spans, k) then [k] else []
    ensures Children(spans, done + [k], id)
         == Children(spans, done, id) + if !IsRoot(spans, k) && ParentOf(spans, k) == Some(id) then [k] else []
  {
    assert (done + [k])[..|done|] == done;
  }

  /** Push a node onto its parent's children. */
  method Attach(spans: seq<Span>, table: map<string, SpanNode>, ghost done: seq<string>, p: string, node: SpanNode)
    requires NodesOk(spans, table) && p in table && node.id in table && table[node.id] == node
    requires !IsRoot(spans, node.id) && ParentOf(spans, node.id) == Some(p)
    requires AllHung(spans, table, done)
    modifies table[p]
    ensures AllHung(spans, table, done + [node.id])
  {
    ghost var before := table[p].children;
    assert Hung(spans, table, done, p);
    IdsAppend(before, node, table);
    table[p].children := table[p].children + [node];
    forall id | id in table ensures Hung(spans, table, done + [node.id], id) {
      OneMoreKey(spans, done, node.id, id);
      if id != p {
        assert table[id] != table[p];
        assert old(Hung(spans, table, done, id));
      } else {
        assert old(Hung(spans, table, done, p));
      }
    }
  }

  lemma RootHangsNowhere(spans: seq<Span>, table: map<string, SpanNode>, done: seq<string>, k: string)
    requires IsRoot(spans, k) && AllHung(spans, table, done)
    ensures AllHung(spans, table, done + [k])
  {
    forall id | id in table ensures Hung(spans, table, done + [k], id) {
      OneMoreKey(spans, done, k, id);
      assert Hung(spans, table, done, id);
    }
  }

  /** The keys done so far stand among the roots or under their own parents, in order. */
  ghost predicate Placed(spans: seq<Span>, table: map<string, SpanNode>, done: seq<string>, roots: seq<SpanNode>)
    reads set id | id in table :: table[id]
  {
    Ids(roots) == Roots(spans, done) && AreNodes(roots, table) && AllHung(spans, table, done)
  }

  lemma NothingPlaced(spans: seq<Span>, table: map<string, SpanNode>)
    requires forall id :: id in table ==> table[id].children == []
    ensures Placed(spans, table, [], [])
  {
  }

  /** Second loop, one node: under its parent when that is in the map, else among the roots. */
  method Place(spans: seq<Span>, table: map<string, SpanNode>, ghost done: seq<string>, k: string, roots: seq<SpanNode>)
    returns (grown: seq<SpanNode>)
    requires NodesOk(spans, table) && k in table && Placed(spans, table, done, roots)
    modifies set id | id in table :: table[id]
    ensures Placed(spans, table, done + [k], grown)
  {
    var node := table[k];
    OneMoreKey(spans, done, k, "");
    if node.parent.Some? && node.parent.value != "" && node.parent.value in table {
      Attach(spans, table, done, node.parent.value, node);
      grown := roots;
    } else {
      RootHangsNowhere(spans, table, done, k);
      IdsAppend(roots, node, table);
      grown := roots + [node];
    }
  }

  method PlaceAll(spans: seq<Span>, table: map<string, SpanNode>, order: seq<string>) returns (roots: seq<SpanNode>)
    requires NodesOk(spans, table) && forall id :: id in order ==> id in table
    requires forall id :: id in table ==> table[id].children == []
    modifies set id | id in table :: table[id]
    ensures Placed(spans, table, order, roots)
  {
    NothingPlaced(spans, table);
    roots := [];
    ghost var done: seq<string> := [];
    for i := 0 to |order|
      invariant done == order[..i] && Placed(spans, table, done, roots)
    {
      roots := Place(spans, table, done, order[i], roots);
      done := done + [order[i]];
    }
    assert done == order;
  }

  /**
   * Each distinct id becomes one fresh node; a node hangs under its own parent, or among the
   * roots when it has none in the input; siblings and roots keep the input's order.
   */
  method BuildTree(spans: seq<Span>) returns (roots: seq<SpanNode>, ghost nodes: map<string, SpanNode>)
    ensures NodesOk(spans, nodes) && forall id :: id in nodes ==> fresh(nodes[id])
    ensures Ids(roots) == Roots(spans, Keys(spans)) && AreNodes(roots, nodes)
    ensures AllHung(spans, nodes, Keys(spans))
  {
    var table, order := CollectNodes(spans);
    nodes := table;
    roots := PlaceAll(spans, table, order);
  }
}
