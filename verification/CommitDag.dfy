/** The checkpoint history as a graph: elimination in topological order and search from the head. */
module CommitDag {
  import opened Basics

  type Commit = string

  /** The parents of every commit in the inventory; a parent may lie outside it. */
  type Graph = map<Commit, seq<Commit>>

  ghost predicate DistinctParents(g: Graph) {
    forall c | c in g :: Distinct(g[c])
  }

  /** A walk inside the inventory from child to parent. */
  predicate IsWalk(g: Graph, w: seq<Commit>) {
    && w != [] && (forall i | 0 <= i < |w| :: w[i] in g)
    && forall i | 0 <= i < |w| - 1 :: w[i + 1] in g[w[i]]
  }

  predicate IsCycle(g: Graph, w: seq<Commit>) { |w| > 1 && IsWalk(g, w) && w[0] == w[|w| - 1] }

  ghost predicate Acyclic(g: Graph) { forall w :: !IsCycle(g, w) }

  ghost predicate WalkTo(g: Graph, w: seq<Commit>, head: Commit, c: Commit) {
    IsWalk(g, w) && w[0] == head && w[|w| - 1] == c
  }

  ghost predicate Reachable(g: Graph, head: Commit, c: Commit) { exists w :: WalkTo(g, w, head, c) }

  /** The parents of a commit that are in the inventory. */
  function Inside(g: Graph, c: Commit): set<Commit>
    requires c in g
  {
    set p | p in g[c] && p in g
  }

  // ------------------------------------------------ elimination orders

  /** `done` lists commits so that each one's parents in the inventory come before it. */
  ghost predicate IsElimination(g: Graph, done: seq<Commit>) {
    && (forall i | 0 <= i < |done| :: done[i] in g && Inside(g, done[i]) <= Elements(done[..i]))
    && Distinct(done)
  }

  function Elements(s: seq<Commit>): set<Commit> { set c | c in s }

  /** The place of a commit in an elimination. */
  ghost function Place(done: seq<Commit>, c: Commit): nat
    requires c in done
  {
    var i :| 0 <= i < |done| && done[i] == c;
    i
  }

  lemma {:induction false} WalkDescends(g: Graph, done: seq<Commit>, w: seq<Commit>)
    requires IsElimination(g, done) && IsWalk(g, w) && w[0] in done
    ensures w[|w| - 1] in done
    ensures |w| > 1 ==> Place(done, w[|w| - 1]) < Place(done, w[0])
    decreases |w|
  {
    if |w| > 1 {
      var i := Place(done, w[0]);
      assert w[1] in Inside(g, done[i]);
      assert w[1] in done[..i];
      var j :| 0 <= j < i && done[j] == w[1];
      assert Place(done, w[1]) == j;
      WalkDescends(g, done, w[1..]);
    }
  }

  /** A complete elimination rules out every cycle. */
  lemma EliminationIsAcyclic(g: Graph, done: seq<Commit>)
    requires IsElimination(g, done) && Elements(done) == g.Keys
    ensures Acyclic(g)
  {
    forall w | IsCycle(g, w) ensures false {
      assert w[0] in Elements(done);
      WalkDescends(g, done, w);
    }
  }

  /** A non-empty set in which everyone has a parent contains arbitrarily long walks. */
  lemma {:induction false} LongWalk(g: Graph, stuck: set<Commit>, c: Commit, n: nat) returns (w: seq<Commit>)
    requires stuck <= g.Keys && c in stuck
    requires forall x | x in stuck :: Inside(g, x) * stuck != {}
    ensures |w| == n + 1 && w[0] == c && IsWalk(g, w) && forall i | 0 <= i < |w| :: w[i] in stuck
    decreases n
  {
    if n == 0 {
      w := [c];
    } else {
      var p :| p in Inside(g, c) * stuck;
      var rest := LongWalk(g, stuck, p, n - 1);
      w := [c] + rest;
      assert forall i | 0 <= i < |w| - 1 :: w[i + 1] in g[w[i]] by {
        forall i | 0 <= i < |w| - 1 ensures w[i + 1] in g[w[i]] {
          if i > 0 { assert rest[i - 1 + 1] in g[rest[i - 1]]; }
        }
      }
    }
  }

  lemma {:induction false} Pigeonhole(s: seq<Commit>, universe: set<Commit>) returns (i: nat, j: nat)
    requires |s| > |universe| && forall k | 0 <= k < |s| :: s[k] in universe
    ensures i < j < |s| && s[i] == s[j]
    decreases |s|
  {
    var last := |s| - 1;
    if k :| 0 <= k < last && s[k] == s[last] {
      i, j := k, last;
    } else {
      i, j := Pigeonhole(s[..last], universe - {s[last]});
    }
  }

  /** A walk longer than the inventory visits some commit twice. */
  lemma LongWalkIsCyclic(g: Graph, universe: set<Commit>, w: seq<Commit>)
    requires IsWalk(g, w) && |w| > |universe| && forall i | 0 <= i < |w| :: w[i] in universe
    ensures !Acyclic(g)
  {
    var i, j := Pigeonhole(w, universe);
    var loop := w[i..j + 1];
    forall k | 0 <= k < |loop| - 1 ensures loop[k + 1] in g[loop[k]] {
      assert loop[k] == w[i + k] && loop[k + 1] == w[i + k + 1];
    }
    assert IsCycle(g, loop);
  }

  lemma StuckHasCycle(g: Graph, stuck: set<Commit>)
    requires stuck <= g.Keys && stuck != {}
    requires forall x | x in stuck :: Inside(g, x) * stuck != {}
    ensures !Acyclic(g)
  {
    var c :| c in stuck;
    var w := LongWalk(g, stuck, c, |stuck|);
    LongWalkIsCyclic(g, stuck, w);
  }

  // ------------------------------------------------ the two worklists

  /** The children of a commit in inventory order. */
  function ChildrenOf(g: Graph, order: seq<Commit>, p: Commit): seq<Commit>
    requires forall c | c in order :: c in g
  {
    if order == [] then []
    else
      var last := order[|order| - 1];
      ChildrenOf(g, order[..|order| - 1], p) + if p in g[last] then [last] else []
  }

  predicate IsOrder(g: Graph, order: seq<Commit>) { Elements(order) == g.Keys && Distinct(order) }

  lemma {:induction false} ChildrenExact(g: Graph, order: seq<Commit>, p: Commit)
    requires forall c | c in order :: c in g
    requires Distinct(order)
    ensures forall c :: c in ChildrenOf(g, order, p) <==> c in order && p in g[c]
    ensures Distinct(ChildrenOf(g, order, p))
  {
    if order != [] {
      ChildrenExact(g, order[..|order| - 1], p);
      assert order == order[..|order| - 1] + [order[|order| - 1]];
    }
  }

  /** How many parents of a commit are inside and not yet eliminated. */
  ghost function Pending(g: Graph, c: Commit, done: set<Commit>): nat
    requires c in g
  {
    |Inside(g, c) - done|
  }

  /** The number of parents that are in the inventory. */
  function CountInside(g: Graph, parents: seq<Commit>): nat {
    if parents == [] then 0 else CountInside(g, parents[..|parents| - 1]) + if parents[|parents| - 1] in g then 1 else 0
  }

  lemma {:induction false} CountIsSize(g: Graph, parents: seq<Commit>)
    requires Distinct(parents)
    ensures CountInside(g, parents) == |set p | p in parents && p in g|
  {
    if parents != [] {
      var rest, last := parents[..|parents| - 1], parents[|parents| - 1];
      CountIsSize(g, rest);
      InsideStep(g, rest, last);
      assert parents == rest + [last] && last !in rest;
    }
  }

  lemma InsideStep(g: Graph, rest: seq<Commit>, last: Commit)
    ensures (set p | p in rest + [last] && p in g) == (set p | p in rest && p in g) + if last in g then {last} else {}
  {
  }

  /** Enters one commit in the children list of each of its parents. */
  method AddChild(g: Graph, commit: Commit, children0: map<Commit, seq<Commit>>)
    returns (children: map<Commit, seq<Commit>>)
    requires commit in g && children0.Keys == g.Keys
    requires Distinct(g[commit])
    ensures children.Keys == g.Keys
    ensures forall p | p in g :: children[p] == (if p in g[commit] then children0[p] + [commit] else children0[p])
  {
    children := children0;
    var parents := g[commit];
    for j := 0 to |parents|
      invariant children.Keys == g.Keys
      invariant forall p | p in g ::
                  children[p] == (if p in parents[..j] then children0[p] + [commit] else children0[p])
    {
      var parent := parents[j];
      assert parent !in parents[..j] && parents[..j + 1] == parents[..j] + [parent];
      if parent in g { children := children[parent := children[parent] + [commit]]; }
    }
    assert parents[..|parents|] == parents;
  }

  lemma ChildrenGrow(g: Graph, order: seq<Commit>, i: nat, p: Commit)
    requires i < |order| && forall c | c in order :: c in g
    ensures ChildrenOf(g, order[..i + 1], p)
            == ChildrenOf(g, order[..i], p) + (if p in g[order[i]] then [order[i]] else [])
  {
    assert order[..i + 1][..i] == order[..i];
  }

  lemma NoChildren(g: Graph, order: seq<Commit>, p: Commit)
    requires forall c | c in order :: c in g
    ensures ChildrenOf(g, order[..0], p) == []
  {
  }

  /** The children lists and the parent counts, filled in one pass over the inventory. */
  method Prepare(g: Graph, order: seq<Commit>) returns (children: map<Commit, seq<Commit>>, indegree: map<Commit, int>)
    requires DistinctParents(g) && IsOrder(g, order)
    ensures children.Keys == g.Keys && forall p | p in g :: children[p] == ChildrenOf(g, order, p)
    ensures indegree.Keys == g.Keys && forall c | c in g :: indegree[c] == Pending(g, c, {})
  {
    hide ChildrenOf, Pending, CountInside, Inside, Distinct, Elements;
    children := map c | c in g :: [];
    indegree := map[];
    OrderIsKnown(g, order);
    forall p | p in g { NoChildren(g, order, p); }
    for i := 0 to |order|
      invariant children.Keys == g.Keys && forall p | p in g :: children[p] == ChildrenOf(g, order[..i], p)
      invariant indegree.Keys == Elements(order[..i])
      invariant forall c | c in indegree :: c in g && indegree[c] == Pending(g, c, {})
    {
      var commit := order[i];
      CountIsPending(g, commit);
      indegree := indegree[commit := CountInside(g, g[commit])];
      children := AddChild(g, commit, children);
      forall p | p in g { ChildrenGrow(g, order, i, p); }
      ElementsGrow(order, i);
    }
    assert order[..|order|] == order;
  }

  lemma ElementsGrow(s: seq<Commit>, i: nat)
    requires i < |s|
    ensures Elements(s[..i + 1]) == Elements(s[..i]) + {s[i]}
  {
  }

  lemma OrderIsKnown(g: Graph, order: seq<Commit>)
    requires IsOrder(g, order)
    ensures forall c | c in order :: c in g
    ensures Elements(order[..0]) == {}
  {
    assert forall c | c in order :: c in Elements(order);
  }

  lemma CountIsPending(g: Graph, c: Commit)
    requires c in g && DistinctParents(g)
    ensures CountInside(g, g[c]) == Pending(g, c, {})
  {
    CountIsSize(g, g[c]);
    assert Inside(g, c) - {} == set p | p in g[c] && p in g;
  }

  /** The queue holds, once each, the commits outside `blocked` with no parent left. */
  ghost predicate Queued(g: Graph, indegree: map<Commit, int>, queue: seq<Commit>, blocked: set<Commit>)
    requires indegree.Keys == g.Keys
  {
    && (forall c :: c in queue <==> c in g && c !in blocked && indegree[c] == 0)
    && Distinct(queue)
  }

  lemma QueueStep(g: Graph, indegree: map<Commit, int>, queue: seq<Commit>, blocked: set<Commit>, child: Commit)
    requires indegree.Keys == g.Keys && Queued(g, indegree, queue, blocked)
    requires child in g && child !in blocked && indegree[child] > 0
    ensures var after := indegree[child := indegree[child] - 1];
      after.Keys == g.Keys && Queued(g, after, if after[child] == 0 then queue + [child] else queue, blocked)
  {
    assert child !in queue;
  }

  /** What holds between two rounds of the elimination, with `done` eliminated and `popped` being eliminated. */
  ghost predicate Consistent(g: Graph, indegree: map<Commit, int>, queue: seq<Commit>, done: set<Commit>,
        popped: set<Commit>) {
    && indegree.Keys == g.Keys && (forall c | c in g :: indegree[c] == Pending(g, c, done))
    && Queued(g, indegree, queue, done + popped)
  }

  lemma PendingAfter(g: Graph, c: Commit, done: set<Commit>, commit: Commit)
    requires c in g && commit !in done && commit in g
    ensures Pending(g, c, done + {commit}) == Pending(g, c, done) - if commit in g[c] then 1 else 0
  {
    assert Inside(g, c) - (done + {commit}) == (Inside(g, c) - done) - {commit};
  }

  lemma ChildIsWaiting(g: Graph, done: set<Commit>, commit: Commit, child: Commit)
    requires commit in g && commit !in done && Pending(g, commit, done) == 0
    requires child in g && commit in g[child]
    requires forall c | c in done :: c in g && Inside(g, c) <= done
    ensures child !in done && child != commit && Pending(g, child, done) > 0
  {
    assert commit in Inside(g, child) - done;
    assert Inside(g, commit) - done == {};
  }

  /** Takes one eliminated commit away from its children's counts and queues those that become free. */
  method Release(g: Graph, children: seq<Commit>, commit: Commit, indegree0: map<Commit, int>, queue0: seq<Commit>,
                 ghost done: set<Commit>) returns (indegree: map<Commit, int>, queue: seq<Commit>)
    requires Consistent(g, indegree0, queue0, done, {commit}) && commit in g && commit !in done
    requires indegree0[commit] == 0
    requires forall c | c in done :: c in g && Inside(g, c) <= done
    requires forall c :: c in children <==> c in g && commit in g[c]
    requires Distinct(children)
    ensures Consistent(g, indegree, queue, done + {commit}, {})
  {
    hide Queued, Pending, Inside;
    indegree, queue := indegree0, queue0;
    for j := 0 to |children|
      invariant indegree.Keys == g.Keys && Queued(g, indegree, queue, done + {commit})
      invariant forall c | c in g :: indegree[c] == indegree0[c] - if c in children[..j] then 1 else 0
    {
      var child := children[j];
      ChildIsWaiting(g, done, commit, child);
      assert child !in children[..j] && children[..j + 1] == children[..j] + [child];
      QueueStep(g, indegree, queue, done + {commit}, child);
      indegree := indegree[child := indegree[child] - 1];
      if indegree[child] == 0 { queue := queue + [child]; }
    }
    assert children[..|children|] == children;
    forall c | c in g ensures indegree[c] == Pending(g, c, done + {commit}) { PendingAfter(g, c, done, commit); }
    assert done + {commit} + {} == done + {commit};
  }

  lemma EliminationGrows(g: Graph, done: seq<Commit>, commit: Commit)
    requires IsElimination(g, done) && commit in g && commit !in done && Inside(g, commit) <= Elements(done)
    ensures IsElimination(g, done + [commit]) && Elements(done + [commit]) == Elements(done) + {commit}
  {
    var more := done + [commit];
    forall i | 0 <= i < |more| ensures more[i] in g && Inside(g, more[i]) <= Elements(more[..i]) {
      assert more[..i] == done[..i];
      if i == |done| { assert done[..i] == done; }
    }
  }

  lemma EliminationClosed(g: Graph, done: seq<Commit>)
    requires IsElimination(g, done)
    ensures Distinct(done)
    ensures forall c | c in Elements(done) :: c in g && Inside(g, c) <= Elements(done)
  {
    forall c | c in Elements(done) ensures c in g && Inside(g, c) <= Elements(done) {
      var i :| 0 <= i < |done| && done[i] == c;
      assert Elements(done[..i]) <= Elements(done);
    }
  }

  lemma InsideKnown(g: Graph, c: Commit)
    requires c in g
    ensures Inside(g, c) <= g.Keys
  {
  }

  lemma {:induction false} DistinctSize(s: seq<Commit>)
    requires Distinct(s)
    ensures |Elements(s)| == |s|
  {
    if s != [] {
      var rest := s[..|s| - 1];
      DistinctSize(rest);
      assert Elements(s) == Elements(rest) + {s[|s| - 1]};
      assert s[|s| - 1] !in Elements(rest);
    }
  }

  method InitialQueue(g: Graph, order: seq<Commit>, indegree: map<Commit, int>) returns (queue: seq<Commit>)
    requires IsOrder(g, order) && indegree.Keys == g.Keys
    ensures Queued(g, indegree, queue, {})
  {
    queue := [];
    assert forall c :: c in order <==> c in Elements(order);
    for i := 0 to |order|
      invariant forall c :: c in queue <==> c in order[..i] && c in g && indegree[c] == 0
      invariant Distinct(queue)
    {
      assert order[i] !in order[..i] && order[..i + 1] == order[..i] + [order[i]] && order[i] in g;
      if indegree[order[i]] == 0 { queue := queue + [order[i]]; }
    }
    assert order[..|order|] == order;
  }

  /** Once nothing is queued, everything was eliminated exactly when there is no cycle. */
  lemma Verdict(g: Graph, indegree: map<Commit, int>, done: seq<Commit>)
    requires IsElimination(g, done) && Consistent(g, indegree, [], Elements(done), {})
    ensures |done| == |g| <==> Acyclic(g)
  {
    hide Pending, Inside, IsElimination, Acyclic;
    EliminationClosed(g, done);
    DistinctSize(done);
    SubsetSize(Elements(done), g.Keys);
    if Elements(done) == g.Keys {
      EliminationIsAcyclic(g, done);
    } else {
      var stuck := g.Keys - Elements(done);
      forall x | x in stuck ensures Inside(g, x) * stuck != {} {
        assert indegree[x] != 0 by { var none: seq<Commit> := []; assert x !in none; }
        NothingPending(g, x, Elements(done));
        InsideKnown(g, x);
      }
      StuckHasCycle(g, stuck);
    }
  }

  /** A queue without the element at `k`. */
  function Without(queue: seq<Commit>, k: nat): seq<Commit>
    requires k < |queue|
  {
    queue[..k] + queue[k + 1..]
  }

  /** Taking one element out of a queue loses exactly that element. */
  lemma WithoutLosesOne(queue: seq<Commit>, k: nat)
    requires k < |queue| && Distinct(queue)
    ensures Distinct(Without(queue, k)) && forall c :: c in Without(queue, k) <==> c in queue && c != queue[k]
  {
    var rest := Without(queue, k);
    assert forall i | 0 <= i < |rest| :: rest[i] == queue[if i < k then i else i + 1];
    forall c | c in queue && c != queue[k] ensures c in rest {
      var i :| 0 <= i < |queue| && queue[i] == c;
      assert rest[if i < k then i else i - 1] == c;
    }
  }

  lemma PopQueued(g: Graph, indegree: map<Commit, int>, queue: seq<Commit>, k: nat, done: set<Commit>)
    requires Consistent(g, indegree, queue, done, {}) && k < |queue|
    ensures var commit := queue[k];
      && commit in g && commit !in done && indegree[commit] == 0 && Inside(g, commit) <= done
      && Consistent(g, indegree, Without(queue, k), done, {commit})
  {
    hide Pending, Inside;
    WithoutLosesOne(queue, k);
    hide Distinct, Without;
    assert queue[k] in queue;
    NothingPending(g, queue[k], done);
    assert done + {} == done;
  }

  lemma NothingPending(g: Graph, c: Commit, done: set<Commit>)
    requires c in g
    ensures Pending(g, c, done) == 0 <==> Inside(g, c) <= done
  {
    var left := Inside(g, c) - done;
    assert Pending(g, c, done) == |left|;
    if left == {} {
      forall p | p in Inside(g, c) ensures p in done {
        assert p in done || p in left;
      }
    }
    if Inside(g, c) <= done {
      forall p ensures p !in left {
      }
    }
  }

  lemma StartConsistent(g: Graph, indegree: map<Commit, int>, queue: seq<Commit>)
    requires indegree.Keys == g.Keys && Queued(g, indegree, queue, {})
    requires forall c | c in g :: indegree[c] == Pending(g, c, {})
    ensures IsElimination(g, []) && Elements([]) == {} && Consistent(g, indegree, queue, {}, {})
  {
    var none: set<Commit> := {};
    assert none + none == none;
  }

  /** Which waiting commit a round takes; any order of taking them is some such choice. */
  type Pick = (nat, seq<Commit>) -> nat

  ghost predicate PicksWaiting(pick: Pick) { forall n, queue | queue != [] :: pick(n, queue) < |queue| }

  /** The source's choice, `queue.pop()`. */
  const LAST_IN: Pick := (n, queue) => if queue == [] then 0 else |queue| - 1

  /** Eliminates commits whose parents are all gone; in any order the count is complete exactly on acyclic histories. */
  method Eliminate(g: Graph, order: seq<Commit>, pick: Pick) returns (processed: nat)
    requires DistinctParents(g) && IsOrder(g, order) && PicksWaiting(pick)
    ensures processed == |g| <==> Acyclic(g)
  {
    hide Queued, Pending, Inside, Consistent, IsElimination, Acyclic, ChildrenOf, Distinct, Without;
    var children, indegree := Prepare(g, order);
    var queue := InitialQueue(g, order, indegree);
    processed := 0;
    ghost var done: seq<Commit> := [];
    StartConsistent(g, indegree, queue);
    while queue != []
      invariant IsElimination(g, done) && processed == |done|
      invariant Consistent(g, indegree, queue, Elements(done), {})
      decreases g.Keys - Elements(done)
    {
      var k := pick(processed, queue);
      PopQueued(g, indegree, queue, k, Elements(done));
      EliminationClosed(g, done);
      var commit := queue[k];
      queue := Without(queue, k);
      processed := processed + 1;
      EliminationGrows(g, done, commit);
      ChildrenExact(g, order, commit);
      assert forall c | c in order :: c in Elements(order);
      indegree, queue := Release(g, children[commit], commit, indegree, queue, Elements(done));
      done := done + [commit];
    }
    Verdict(g, indegree, done);
  }

  // ------------------------------------------------ search from the head

  /** Everything found is reachable, and every parent of something found is found or waiting. */
  ghost predicate Searching(g: Graph, head: Commit, found: set<Commit>, queue: seq<Commit>) {
    && found <= g.Keys && (forall c | c in queue :: c in g && Reachable(g, head, c))
    && (forall c | c in found :: Reachable(g, head, c))
    && (head in found || head in queue)
    && forall c, p | c in found && p in Inside(g, c) :: p in found || p in queue
  }

  lemma ReachParent(g: Graph, head: Commit, c: Commit, p: Commit)
    requires Reachable(g, head, c) && c in g && p in Inside(g, c)
    ensures Reachable(g, head, p)
  {
    var w :| WalkTo(g, w, head, c);
    var longer := w + [p];
    forall i | 0 <= i < |longer| - 1 ensures longer[i + 1] in g[longer[i]] {
      if i < |w| - 1 { assert w[i + 1] in g[w[i]]; }
    }
    assert WalkTo(g, longer, head, p);
  }

  /** A set that holds the head and the parents of its members holds every walk from the head. */
  lemma {:induction false} WalkStaysInside(g: Graph, found: set<Commit>, w: seq<Commit>)
    requires IsWalk(g, w) && w[0] in found
    requires forall c, p | c in found && c in g && p in Inside(g, c) :: p in found
    ensures w[|w| - 1] in found
    decreases |w|
  {
    if |w| > 1 {
      assert w[1] in Inside(g, w[0]);
      WalkStaysInside(g, found, w[1..]);
    }
  }

  /** The parents that are in the inventory, in order. */
  function KeepInside(g: Graph, parents: seq<Commit>): (r: seq<Commit>)
    ensures forall p :: p in r <==> p in parents && p in g
  {
    if parents == [] then []
    else (if parents[0] in g then [parents[0]] else []) + KeepInside(g, parents[1..])
  }

  lemma SearchSkips(g: Graph, head: Commit, found: set<Commit>, queue: seq<Commit>)
    requires Searching(g, head, found, queue) && queue != [] && queue[|queue| - 1] in found
    ensures Searching(g, head, found, queue[..|queue| - 1])
  {
    assert queue == queue[..|queue| - 1] + [queue[|queue| - 1]];
  }

  lemma SearchExpands(g: Graph, head: Commit, found: set<Commit>, queue: seq<Commit>)
    requires Searching(g, head, found, queue) && queue != []
    ensures queue[|queue| - 1] in g
    ensures var c := queue[|queue| - 1];
      Searching(g, head, found + {c}, queue[..|queue| - 1] + KeepInside(g, g[c]))
  {
    var c := queue[|queue| - 1];
    assert c in queue && queue == queue[..|queue| - 1] + [c];
    forall p | p in Inside(g, c) { ReachParent(g, head, c, p); }
  }

  /** The search ends with exactly the commits that a parent walk from the head reaches. */
  method Search(g: Graph, head: Commit) returns (found: set<Commit>)
    requires head in g
    ensures forall c :: c in found <==> Reachable(g, head, c)
    ensures found <= g.Keys
  {
    hide Searching, Reachable, Inside;
    found := {};
    var queue := [head];
    SearchStarts(g, head);
    while queue != []
      invariant Searching(g, head, found, queue)
      invariant found <= g.Keys
      decreases g.Keys - found, |queue|
    {
      var commit := queue[|queue| - 1];
      if commit in found {
        SearchSkips(g, head, found, queue);
        queue := queue[..|queue| - 1];
      } else {
        SearchExpands(g, head, found, queue);
        found := found + {commit};
        queue := queue[..|queue| - 1] + KeepInside(g, g[commit]);
      }
    }
    SearchEnds(g, head, found);
  }

  lemma SearchStarts(g: Graph, head: Commit)
    requires head in g
    ensures Searching(g, head, {}, [head])
  {
    assert WalkTo(g, [head], head, head);
  }

  lemma SearchEnds(g: Graph, head: Commit, found: set<Commit>)
    requires Searching(g, head, found, [])
    ensures forall c :: c in found <==> Reachable(g, head, c)
  {
    forall c | Reachable(g, head, c) ensures c in found {
      var w :| WalkTo(g, w, head, c);
      WalkStaysInside(g, found, w);
    }
  }

  // ------------------------------------------------ walks through an accepted history

  /** A parent walk that may end at its last step outside the inventory. */
  ghost predicate IsTrail(g: Graph, w: seq<Commit>, head: Commit) {
    && w != [] && w[0] == head
    && forall i | 0 <= i < |w| - 1 :: w[i] in g && w[i + 1] in g[w[i]]
  }

  /** Every trail ends within |g| steps, in the inventory or at an anchor; one that cannot go on ends at an anchor. */
  lemma TrailsEndAtAnchors(g: Graph, anchors: set<Commit>, head: Commit, w: seq<Commit>)
    requires Acyclic(g) && head in g && IsTrail(g, w, head)
    requires forall c, p | c in g && p in g[c] :: p in g || p in anchors
    requires forall c | c in g :: g[c] != []
    ensures |w| <= |g| + 1
    ensures w[|w| - 1] in g || w[|w| - 1] in anchors
    ensures (forall p :: !IsTrail(g, w + [p], head)) ==> w[|w| - 1] in anchors
  {
    var last := w[|w| - 1];
    if |w| > 1 {
      assert w[|w| - 2 + 1] in g[w[|w| - 2]];
      var inner := w[..|w| - 1];
      forall i | 0 <= i < |inner| - 1 ensures inner[i + 1] in g[inner[i]] {
        assert w[i + 1] in g[w[i]];
      }
      if |inner| > |g| { LongWalkIsCyclic(g, g.Keys, inner); }
    }
    if last in g {
      var p := g[last][0];
      var longer := w + [p];
      forall i | 0 <= i < |longer| - 1 ensures longer[i] in g && longer[i + 1] in g[longer[i]] {
        if i < |w| - 1 { assert w[i] in g && w[i + 1] in g[w[i]]; }
      }
      assert IsTrail(g, longer, head);
    }
  }
}
