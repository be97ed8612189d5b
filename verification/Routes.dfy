/** Breadth-first search for the shortest declared route that uses one state only as a destination. */
module Routes {
  import opened Prelude

  /** Out-edges of every state, in the order they are tried. */
  type Graph<T> = map<T, seq<T>>

  ghost predicate Closed<T(!new)>(g: Graph<T>) {
    forall s, t :: s in g && t in g[s] ==> t in g
  }

  function At<T>(start: T, route: seq<T>, i: nat): T
    requires i <= |route|
  {
    if i == 0 then start else route[i - 1]
  }

  /** Consecutive states are declared edges. */
  ghost predicate IsWalk<T(!new)>(g: Graph<T>, start: T, route: seq<T>) {
    && start in g
    && forall i :: 0 <= i < |route| ==> At(start, route, i) in g && route[i] in g[At(start, route, i)]
  }

  /** A walk to the target that never passes through the avoided state on the way. */
  ghost predicate IsRoute<T(!new)>(g: Graph<T>, start: T, target: T, avoid: T, route: seq<T>) {
    && IsWalk(g, start, route)
    && At(start, route, |route|) == target
    && forall i :: 0 <= i < |route| - 1 ==> route[i] != avoid
  }

  ghost predicate IsShortest<T(!new)>(g: Graph<T>, start: T, target: T, avoid: T, route: seq<T>) {
    && IsRoute(g, start, target, avoid, route)
    && forall other :: IsRoute(g, start, target, avoid, other) ==> |route| <= |other|
  }

  datatype Entry<T> = Entry(state: T, route: seq<T>)

  /** What the search knows: distances of the states seen, and which of them are finished. */
  datatype Search<!T> = Search(dist: map<T, nat>, finished: set<T>)

  /** A queued walk: it leads to its state, meets no avoided state, and is as long as the recorded distance. */
  ghost predicate GoodEntry<T(!new)>(g: Graph<T>, start: T, avoid: T, k: Search<T>, e: Entry<T>) {
    && IsWalk(g, start, e.route) && At(start, e.route, |e.route|) == e.state && e.state in g
    && (forall i :: 0 <= i < |e.route| ==> e.route[i] != avoid)
    && e.state in k.dist && k.dist[e.state] == |e.route|
  }

  ghost predicate InQueue<T(!new)>(queue: seq<Entry<T>>, s: T) {
    exists i :: 0 <= i < |queue| && queue[i].state == s
  }

  /** A finished state's edges lead to states seen at most one step later, never to the target. */
  ghost predicate EdgesDone<T(!new)>(g: Graph<T>, target: T, avoid: T, k: Search<T>) {
    forall s, t :: s in k.finished && s in g && t in g[s] ==> EdgeDone(target, avoid, k, s, t)
  }

  ghost predicate EdgeDone<T>(target: T, avoid: T, k: Search<T>, s: T, t: T) {
    && t != target
    && (t != avoid ==> t in k.dist && s in k.dist && k.dist[t] <= k.dist[s] + 1)
  }

  ghost predicate Known<T(!new)>(g: Graph<T>, start: T, target: T, avoid: T, k: Search<T>) {
    && start in k.dist && k.dist[start] == 0
    && k.finished <= k.dist.Keys && k.dist.Keys <= g.Keys + {start}
    && EdgesDone(g, target, avoid, k)
  }

  /** Within the finished levels the search has seen every state a route could pass. */
  lemma {:induction false} PrefixSeen<T(!new)>(g: Graph<T>, start: T, target: T, avoid: T, k: Search<T>, level: nat,
                                               route: seq<T>, i: nat)
    requires Known(g, start, target, avoid, k) && IsRoute(g, start, target, avoid, route)
    requires i < |route| && i < level
    requires forall s :: s in k.dist && k.dist[s] < level ==> s in k.finished
    ensures At(start, route, i) in k.dist && k.dist[At(start, route, i)] <= i
    ensures route[i] != target
  {
    if i > 0 {
      PrefixSeen(g, start, target, avoid, k, level, route, i - 1);
      var s, t := At(start, route, i - 1), At(start, route, i);
      assert t in g[s] && s in k.finished;
      assert EdgeDone(target, avoid, k, s, t);
    }
    var s := At(start, route, i);
    assert s in k.finished && route[i] in g[s];
    assert EdgeDone(target, avoid, k, s, route[i]);
  }

  /** No route is as short as the level of the unfinished states. */
  lemma RoutesAreLonger<T(!new)>(g: Graph<T>, start: T, target: T, avoid: T, k: Search<T>, level: nat, route: seq<T>)
    requires Known(g, start, target, avoid, k) && start != target
    requires forall s :: s in k.dist && k.dist[s] < level ==> s in k.finished
    requires IsRoute(g, start, target, avoid, route)
    ensures |route| > level
  {
    if |route| <= level {
      PrefixSeen(g, start, target, avoid, k, level, route, |route| - 1);
    }
  }

  /** With nothing left in the queue there is no route at all. */
  lemma ExhaustedMeansNone<T(!new)>(g: Graph<T>, start: T, target: T, avoid: T, k: Search<T>)
    requires Known(g, start, target, avoid, k) && start != target && k.finished == k.dist.Keys
    ensures forall route :: !IsRoute(g, start, target, avoid, route)
  {
    forall route
      ensures !IsRoute(g, start, target, avoid, route)
    {
      if IsRoute(g, start, target, avoid, route) {
        RoutesAreLonger(g, start, target, avoid, k, |route|, route);
      }
    }
  }

  lemma StepWalk<T(!new)>(g: Graph<T>, start: T, avoid: T, k: Search<T>, e: Entry<T>, t: T)
    requires GoodEntry(g, start, avoid, k, e) && t in g[e.state]
    ensures IsWalk(g, start, e.route + [t]) && At(start, e.route + [t], |e.route| + 1) == t
    ensures forall i :: 0 <= i < |e.route| ==> (e.route + [t])[i] != avoid
  {
    var r := e.route + [t];
    forall i | 0 <= i < |r|
      ensures At(start, r, i) in g && r[i] in g[At(start, r, i)]
    {
      assert At(start, r, i) == At(start, e.route, i);
    }
  }

  lemma DistGrows<T(!new)>(g: Graph<T>, start: T, target: T, avoid: T, k: Search<T>, t: T, d: nat)
    requires Known(g, start, target, avoid, k) && t !in k.dist && t in g
    ensures Known(g, start, target, avoid, Search(k.dist[t := d], k.finished))
  {
    var l := Search(k.dist[t := d], k.finished);
    forall x, y | x in l.finished && x in g && y in g[x]
      ensures EdgeDone(target, avoid, l, x, y)
    {
      assert EdgeDone(target, avoid, k, x, y);
    }
  }

  /** The queue holds one good entry for every state seen, not finished and not being worked on, nearest first. */
  ghost predicate QueueFits<T(!new)>(g: Graph<T>, start: T, avoid: T, k: Search<T>, queue: seq<Entry<T>>, busy: set<T>) {
    && (forall i :: 0 <= i < |queue| ==> GoodEntry(g, start, avoid, k, queue[i]) && queue[i].state !in k.finished + busy)
    && (forall s :: s in k.dist && s !in k.finished && s !in busy ==> InQueue(queue, s))
    && (forall i, j :: 0 <= i < j < |queue| ==> queue[i].state != queue[j].state)
    && (forall i, j :: 0 <= i < j < |queue| ==> |queue[i].route| <= |queue[j].route|)
  }

  /** Everything nearer than the level is finished and nothing is more than one step beyond it. */
  ghost predicate Levelled<T(!new)>(k: Search<T>, queue: seq<Entry<T>>, level: nat) {
    && (forall s :: s in k.dist ==> k.dist[s] <= level + 1 && (k.dist[s] < level ==> s in k.finished))
    && (forall i :: 0 <= i < |queue| ==> level <= |queue[i].route| <= level + 1)
  }

  /** Taking the first entry: its distance is the level from now on. */
  lemma TakeFirst<T(!new)>(g: Graph<T>, start: T, avoid: T, k: Search<T>, queue: seq<Entry<T>>, level: nat)
    requires queue != [] && QueueFits(g, start, avoid, k, queue, {}) && Levelled(k, queue, level)
    ensures GoodEntry(g, start, avoid, k, queue[0]) && queue[0].state !in k.finished
    ensures QueueFits(g, start, avoid, k, queue[1..], {queue[0].state})
    ensures Levelled(k, queue[1..], |queue[0].route|)
  {
    hide GoodEntry, IsWalk;
    var e, rest := queue[0], queue[1..];
    GoodDistances(g, start, avoid, k, queue);
    forall s | s in k.dist && s !in k.finished
      ensures s == e.state || InQueue(rest, s)
      ensures k.dist[s] >= |e.route|
    {
      var i :| 0 <= i < |queue| && queue[i].state == s;
      if i > 0 {
        assert rest[i - 1].state == s;
      }
    }
  }

  lemma GoodDistances<T(!new)>(g: Graph<T>, start: T, avoid: T, k: Search<T>, queue: seq<Entry<T>>)
    requires forall i :: 0 <= i < |queue| ==> GoodEntry(g, start, avoid, k, queue[i])
    ensures forall i :: 0 <= i < |queue| ==> queue[i].state in k.dist && k.dist[queue[i].state] == |queue[i].route|
  {
  }

  lemma StillGood<T(!new)>(g: Graph<T>, start: T, avoid: T, k: Search<T>, l: Search<T>, e: Entry<T>)
    requires GoodEntry(g, start, avoid, k, e)
    requires e.state in l.dist && l.dist[e.state] == k.dist[e.state]
    ensures GoodEntry(g, start, avoid, l, e)
  {
  }

  /** Queueing a newly seen state behind everything else. */
  lemma Enqueue<T(!new)>(g: Graph<T>, start: T, avoid: T, k: Search<T>, queue: seq<Entry<T>>, e: Entry<T>, t: T)
    requires GoodEntry(g, start, avoid, k, e) && e.state !in k.finished && k.finished <= k.dist.Keys
    requires QueueFits(g, start, avoid, k, queue, {e.state}) && Levelled(k, queue, |e.route|)
    requires t in g[e.state] && t in g && t !in k.dist && t != avoid
    ensures var l := Search(k.dist[t := |e.route| + 1], k.finished);
            var more := queue + [Entry(t, e.route + [t])];
            && GoodEntry(g, start, avoid, l, e)
            && QueueFits(g, start, avoid, l, more, {e.state}) && Levelled(l, more, |e.route|)
  {
    var l := Search(k.dist[t := |e.route| + 1], k.finished);
    var more := queue + [Entry(t, e.route + [t])];
    StillGood(g, start, avoid, k, l, e);
    StepWalk(g, start, avoid, k, e, t);
    assert GoodEntry(g, start, avoid, l, more[|queue|]);
    EnqueueQueue(g, start, avoid, k, l, queue, e, t);
  }

  lemma EnqueueQueue<T(!new)>(g: Graph<T>, start: T, avoid: T, k: Search<T>, l: Search<T>, queue: seq<Entry<T>>,
                              e: Entry<T>, t: T)
    requires l == Search(k.dist[t := |e.route| + 1], k.finished)
    requires QueueFits(g, start, avoid, k, queue, {e.state}) && Levelled(k, queue, |e.route|)
    requires t !in k.dist && e.state in k.dist && k.finished <= k.dist.Keys
    requires GoodEntry(g, start, avoid, l, Entry(t, e.route + [t]))
    ensures var more := queue + [Entry(t, e.route + [t])];
            QueueFits(g, start, avoid, l, more, {e.state}) && Levelled(l, more, |e.route|)
  {
    hide GoodEntry, IsWalk;
    var more := queue + [Entry(t, e.route + [t])];
    GoodDistances(g, start, avoid, k, queue);
    forall i | 0 <= i < |more|
      ensures GoodEntry(g, start, avoid, l, more[i]) && more[i].state !in l.finished + {e.state}
    {
      if i < |queue| {
        StillGood(g, start, avoid, k, l, queue[i]);
      }
    }
    forall s | s in l.dist && s !in l.finished && s !in {e.state}
      ensures InQueue(more, s)
    {
      if s == t {
        assert more[|queue|].state == t;
      } else {
        var i :| 0 <= i < |queue| && queue[i].state == s;
        assert more[i].state == s;
      }
    }
  }

  /** Finishing the state whose edges have all been tried. */
  lemma Finish<T(!new)>(g: Graph<T>, start: T, target: T, avoid: T, k: Search<T>, queue: seq<Entry<T>>, e: Entry<T>)
    requires Known(g, start, target, avoid, k) && GoodEntry(g, start, avoid, k, e)
    requires QueueFits(g, start, avoid, k, queue, {e.state}) && Levelled(k, queue, |e.route|)
    requires forall t :: t in g[e.state] ==> EdgeDone(target, avoid, k, e.state, t)
    ensures var l := Search(k.dist, k.finished + {e.state});
            && Known(g, start, target, avoid, l)
            && QueueFits(g, start, avoid, l, queue, {}) && Levelled(l, queue, |e.route|)
  {
    var l := Search(k.dist, k.finished + {e.state});
    FinishQueue(g, start, avoid, k, l, queue, e);
    forall s, t | s in l.finished && s in g && t in g[s]
      ensures EdgeDone(target, avoid, l, s, t)
    {
      assert EdgeDone(target, avoid, k, s, t);
    }
  }

  lemma FinishQueue<T(!new)>(g: Graph<T>, start: T, avoid: T, k: Search<T>, l: Search<T>, queue: seq<Entry<T>>, e: Entry<T>)
    requires l == Search(k.dist, k.finished + {e.state})
    requires QueueFits(g, start, avoid, k, queue, {e.state})
    ensures QueueFits(g, start, avoid, l, queue, {})
  {
    hide IsWalk, InQueue;
    forall i | 0 <= i < |queue|
      ensures GoodEntry(g, start, avoid, l, queue[i]) && queue[i].state !in l.finished + {}
    {
      StillGood(g, start, avoid, k, l, queue[i]);
    }
  }

  /** An edge to the target from the entry in hand closes a shortest route. */
  lemma Arrive<T(!new)>(g: Graph<T>, start: T, target: T, avoid: T, k: Search<T>, queue: seq<Entry<T>>, e: Entry<T>)
    requires Known(g, start, target, avoid, k) && start != target
    requires GoodEntry(g, start, avoid, k, e) && Levelled(k, queue, |e.route|) && target in g[e.state]
    ensures IsShortest(g, start, target, avoid, e.route + [target])
  {
    hide Known;
    StepWalk(g, start, avoid, k, e, target);
    var route := e.route + [target];
    assert IsRoute(g, start, target, avoid, route);
    forall other | IsRoute(g, start, target, avoid, other)
      ensures |route| <= |other|
    {
      RoutesAreLonger(g, start, target, avoid, k, |e.route|, other);
    }
  }

  lemma Begin<T(!new)>(g: Graph<T>, start: T, target: T, avoid: T)
    requires start in g
    ensures var k := Search(map[start := 0], {});
            && Known(g, start, target, avoid, k)
            && QueueFits(g, start, avoid, k, [Entry(start, [])], {}) && Levelled(k, [Entry(start, [])], 0)
  {
    var k := Search(map[start := 0], {});
    var queue := [Entry(start, [])];
    assert GoodEntry(g, start, avoid, k, queue[0]);
    assert queue[0].state == start;
  }

  lemma NothingQueued<T(!new)>(g: Graph<T>, start: T, avoid: T, k: Search<T>)
    requires QueueFits(g, start, avoid, k, [], {}) && k.finished <= k.dist.Keys
    ensures k.finished == k.dist.Keys
  {
    var nobody: seq<Entry<T>> := [];
    assert forall s :: s in k.dist ==> s in k.finished || InQueue(nobody, s);
  }

  lemma SeenIsDone<T(!new)>(target: T, avoid: T, k: Search<T>, queue: seq<Entry<T>>, s: T, t: T, level: nat)
    requires Levelled(k, queue, level) && s in k.dist && k.dist[s] == level && t != target
    requires t == avoid || t in k.dist
    ensures EdgeDone(target, avoid, k, s, t)
  {
  }

  lemma UnfinishedIsInGraph<T(!new)>(g: Graph<T>, start: T, target: T, avoid: T, k: Search<T>)
    requires Known(g, start, target, avoid, k) && start in g
    ensures k.dist.Keys <= g.Keys && k.finished <= g.Keys
  {
  }

  /** The shortest route, or nothing when there is none. */
  method PathTo<T(==, !new)>(g: Graph<T>, start: T, target: T, avoid: T) returns (r: Option<seq<T>>)
    requires Closed(g) && start in g
    ensures r.Some? ==> IsShortest(g, start, target, avoid, r.value)
    ensures r.None? ==> forall route :: !IsRoute(g, start, target, avoid, route)
  {
    hide Known, QueueFits, Levelled, GoodEntry, IsShortest, IsRoute, EdgeDone;
    if start == target {
      AtHome(g, start, avoid);
      return Some([]);
    }
    var frontier := [Entry(start, [])];
    var seen := {start};
    ghost var k: Search<T> := Search(map[start := 0], {});
    ghost var level: nat := 0;
    Begin(g, start, target, avoid);
    while frontier != []
      invariant seen == k.dist.Keys && target !in seen
      invariant Known(g, start, target, avoid, k)
      invariant QueueFits(g, start, avoid, k, frontier, {}) && Levelled(k, frontier, level)
      decreases g.Keys - k.finished
    {
      var e := frontier[0];
      TakeFirst(g, start, avoid, k, frontier, level);
      frontier := frontier[1..];
      level := |e.route|;
      EntryInGraph(g, start, avoid, k, e);
      var edges := g[e.state];
      ghost var finished := k.finished;
      for i := 0 to |edges|
        invariant seen == k.dist.Keys && target !in seen && k.finished == finished
        invariant Known(g, start, target, avoid, k) && GoodEntry(g, start, avoid, k, e)
        invariant QueueFits(g, start, avoid, k, frontier, {e.state}) && Levelled(k, frontier, level)
        invariant forall j :: 0 <= j < i ==> EdgeDone(target, avoid, k, e.state, edges[j])
      {
        var nxt := edges[i];
        EntryInGraph(g, start, avoid, k, e);
        if nxt in seen {
          SeenIsDone(target, avoid, k, frontier, e.state, nxt, level);
          continue;
        }
        if nxt == target {
          Arrive(g, start, target, avoid, k, frontier, e);
          return Some(e.route + [nxt]);
        }
        if nxt == avoid {
          SeenIsDone(target, avoid, k, frontier, e.state, nxt, level);
          continue;
        }
        ghost var before := k;
        KnownMeans(g, start, target, avoid, k);
        Enqueue(g, start, avoid, k, frontier, e, nxt);
        DistGrows(g, start, target, avoid, k, nxt, level + 1);
        seen := seen + {nxt};
        frontier := frontier + [Entry(nxt, e.route + [nxt])];
        k := Search(k.dist[nxt := level + 1], k.finished);
        SeenIsDone(target, avoid, k, frontier, e.state, nxt, level);
        StillDone(target, avoid, before, k, e.state, edges[..i]);
      }
      Finish(g, start, target, avoid, k, frontier, e);
      UnfinishedIsInGraph(g, start, target, avoid, k);
      k := Search(k.dist, k.finished + {e.state});
    }
    KnownMeans(g, start, target, avoid, k);
    NothingQueued(g, start, avoid, k);
    ExhaustedMeansNone(g, start, target, avoid, k);
    return None;
  }

  lemma AtHome<T(!new)>(g: Graph<T>, start: T, avoid: T)
    requires start in g
    ensures IsShortest(g, start, start, avoid, [])
  {
  }

  lemma KnownMeans<T(!new)>(g: Graph<T>, start: T, target: T, avoid: T, k: Search<T>)
    requires Known(g, start, target, avoid, k)
    ensures k.finished <= k.dist.Keys
  {
  }

  lemma EntryInGraph<T(!new)>(g: Graph<T>, start: T, avoid: T, k: Search<T>, e: Entry<T>)
    requires GoodEntry(g, start, avoid, k, e)
    ensures e.state in g && e.state in k.dist && k.dist[e.state] == |e.route|
  {
  }

  lemma StillDone<T(!new)>(target: T, avoid: T, k: Search<T>, l: Search<T>, s: T, edges: seq<T>)
    requires forall j :: 0 <= j < |edges| ==> EdgeDone(target, avoid, k, s, edges[j])
    requires forall x :: x in k.dist ==> x in l.dist && l.dist[x] == k.dist[x]
    ensures forall j :: 0 <= j < |edges| ==> EdgeDone(target, avoid, l, s, edges[j])
  {
    forall j | 0 <= j < |edges|
      ensures EdgeDone(target, avoid, l, s, edges[j])
    {
      assert EdgeDone(target, avoid, k, s, edges[j]);
    }
  }
}
