/** validateDAG of internal/core/service.go: Kahn's algorithm decides exactly whether a task list has
    non-empty distinct names, known dependencies and no dependency cycle. */
module Dag {
  import opened Basics
  import opened Permissions
  import opened Records

  /** One declared task of a mission. */
  datatype Task = Task(
    name: string, kind: Kind, skills: seq<string>, deps: seq<string>, priority: int, deadline: Option<int>,
    maxAttempts: int, grants: Envelope, onTimeout: string, question: string, options: seq<string>)

  ghost predicate Named(tasks: seq<Task>) {
    && (forall i :: 0 <= i < |tasks| ==> tasks[i].name != "")
    && (forall i, j :: 0 <= i < j < |tasks| ==> tasks[i].name != tasks[j].name)
  }

  ghost predicate IsName(tasks: seq<Task>, n: string) { exists i :: 0 <= i < |tasks| && tasks[i].name == n }

  ghost predicate Known(tasks: seq<Task>) {
    forall i, d :: 0 <= i < |tasks| && d in tasks[i].deps ==> IsName(tasks, d)
  }

  ghost predicate DependsOn(tasks: seq<Task>, a: string, b: string) {
    exists i :: 0 <= i < |tasks| && tasks[i].name == a && b in tasks[i].deps
  }

  /** A walk along dependencies. */
  ghost predicate Walk(tasks: seq<Task>, path: seq<string>) {
    forall i :: 0 < i < |path| ==> DependsOn(tasks, path[i - 1], path[i])
  }

  ghost predicate Cycle(tasks: seq<Task>, path: seq<string>) {
    |path| >= 2 && path[0] == path[|path| - 1] && Walk(tasks, path)
  }

  ghost predicate NoCycle(tasks: seq<Task>) { forall path :: !Cycle(tasks, path) }

  ghost predicate ValidGrants(tasks: seq<Task>) {
    forall i :: 0 <= i < |tasks| ==> Normalize(tasks[i].grants).Some?
  }

  ghost predicate ValidDag(tasks: seq<Task>) { Named(tasks) && Known(tasks) && NoCycle(tasks) }

  // ---- an order of the tasks rules out cycles ----

  /** Every dependency of a listed name is listed before it. */
  ghost predicate Ordered(tasks: seq<Task>, order: seq<string>) {
    forall k, d :: 0 <= k < |order| && DependsOn(tasks, order[k], d) ==> d in order[..k]
  }

  /** A walk from a name listed at position k stays before it. */
  lemma {:induction false} WalkDescends(tasks: seq<Task>, order: seq<string>, path: seq<string>, k: nat)
    requires Ordered(tasks, order) && Distinct(order) && Walk(tasks, path) && k < |order|
    requires |path| >= 2 && path[0] == order[k]
    ensures path[|path| - 1] in order[..k]
    decreases |path|
  {
    assert DependsOn(tasks, path[0], path[1]);
    if |path| > 2 {
      var j :| 0 <= j < k && order[j] == path[1];
      var rest := path[1..];
      forall i | 0 < i < |rest| ensures DependsOn(tasks, rest[i - 1], rest[i]) {
        assert DependsOn(tasks, path[i], path[i + 1]);
      }
      WalkDescends(tasks, order, rest, j);
      assert path[|path| - 1] == rest[|rest| - 1];
      assert order[..j] == order[..k][..j];
    }
  }

  lemma NotBefore(order: seq<string>, k: nat)
    requires Distinct(order) && k < |order|
    ensures order[k] !in order[..k]
  {}

  lemma OrderedHasNoCycle(tasks: seq<Task>, order: seq<string>)
    requires Ordered(tasks, order) && Distinct(order)
    requires forall n :: IsName(tasks, n) ==> n in order
    ensures NoCycle(tasks)
  {
    forall path ensures !Cycle(tasks, path) {
      if Cycle(tasks, path) {
        assert DependsOn(tasks, path[0], path[1]);
        assert IsName(tasks, path[0]);
        var k :| 0 <= k < |order| && order[k] == path[0];
        NotBefore(order, k);
        WalkDescends(tasks, order, path, k);
      }
    }
  }

  // ---- a stuck remainder contains a cycle ----

  /** Every member depends on a member. */
  ghost predicate Stuck(tasks: seq<Task>, rest: set<string>) {
    forall n :: n in rest ==> exists d :: d in rest && DependsOn(tasks, n, d)
  }

  lemma StuckMember(tasks: seq<Task>, rest: set<string>, n: string)
    requires Stuck(tasks, rest) && n in rest
    ensures exists d :: d in rest && DependsOn(tasks, n, d)
  {}

  lemma {:induction false} LongWalk(tasks: seq<Task>, rest: set<string>, n: string, k: nat) returns (path: seq<string>)
    requires Stuck(tasks, rest) && n in rest
    ensures |path| == k + 1 && path[0] == n && Walk(tasks, path)
    ensures forall i :: 0 <= i < |path| ==> path[i] in rest
    decreases k
  {
    hide DependsOn;
    hide Stuck;
    if k == 0 {
      path := [n];
    } else {
      StuckMember(tasks, rest, n);
      var d :| d in rest && DependsOn(tasks, n, d);
      var more := LongWalk(tasks, rest, d, k - 1);
      path := [n] + more;
      forall i | 0 < i < |path| ensures DependsOn(tasks, path[i - 1], path[i]) {
        if i > 1 {
          assert DependsOn(tasks, more[i - 2], more[i - 1]);
        }
      }
    }
  }

  lemma StuckHasCycle(tasks: seq<Task>, rest: set<string>, n: string)
    requires Stuck(tasks, rest) && n in rest
    ensures !NoCycle(tasks)
  {
    hide DependsOn, Stuck;
    var path := LongWalk(tasks, rest, n, |rest|);
    if Distinct(path) {
      DistinctBound(path, rest);
    } else {
      var i, j :| 0 <= i < j < |path| && path[i] == path[j];
      LoopOf(tasks, path, i, j);
    }
  }

  /** A walk that visits a name twice contains a cycle. */
  lemma LoopOf(tasks: seq<Task>, path: seq<string>, i: nat, j: nat)
    requires Walk(tasks, path) && i < j < |path| && path[i] == path[j]
    ensures !NoCycle(tasks)
  {
    hide DependsOn;
    var loop := path[i..j + 1];
    forall k | 0 < k < |loop| ensures DependsOn(tasks, loop[k - 1], loop[k]) {
      assert DependsOn(tasks, path[i + k - 1], path[i + k]);
    }
    assert Cycle(tasks, loop);
  }

  // ---- in-degrees ----

  /** Occurrences in `deps`, repetitions included, of names not yet done. */
  ghost function Missing(deps: seq<string>, done: set<string>): (n: nat)
    ensures n == 0 <==> forall d :: d in deps ==> d in done
  {
    if deps == [] then 0
    else
      assert deps == deps[..|deps| - 1] + [deps[|deps| - 1]];
      Missing(deps[..|deps| - 1], done) + if deps[|deps| - 1] in done then 0 else 1
  }

  /** Kahn's invariant for one task: its counter, and whether it has been queued. */
  ghost predicate Counted(t: Task, indegree: map<string, int>, done: set<string>, queued: seq<string>) {
    && t.name in indegree && indegree[t.name] == Missing(t.deps, done)
    && (t.name in queued <==> Missing(t.deps, done) == 0)
  }

  ghost predicate QueuedNames(tasks: seq<Task>, order: seq<string>, queue: seq<string>) {
    Distinct(order + queue) && forall n :: n in order + queue ==> IsName(tasks, n)
  }

  lemma TakeAll(deps: seq<string>)
    ensures deps[..|deps|] == deps
  {}

  /** Visits one finished name: all counters of its dependents go down, and those that reach zero are
      queued. */
  method Visit(tasks: seq<Task>, n: string, degrees: map<string, int>, queue0: seq<string>, ghost order: seq<string>)
    returns (indegree: map<string, int>, queue: seq<string>)
    requires Named(tasks) && n !in order && QueuedNames(tasks, order + [n], queue0)
    requires forall i :: 0 <= i < |tasks| ==> Counted(tasks[i], degrees, Elements(order), order + [n] + queue0)
    ensures QueuedNames(tasks, order + [n], queue)
    ensures forall i :: 0 <= i < |tasks| ==> Counted(tasks[i], indegree, Elements(order + [n]), order + [n] + queue)
  {
    indegree, queue := degrees, queue0;
    ghost var before, after := Elements(order), Elements(order + [n]);
    assert after == before + {n};
    for i := 0 to |tasks|
      invariant QueuedNames(tasks, order + [n], queue)
      invariant forall k :: 0 <= k < i ==> Counted(tasks[k], indegree, after, order + [n] + queue)
      invariant forall k :: i <= k < |tasks| ==> Counted(tasks[k], indegree, before, order + [n] + queue)
    {
      var t := tasks[i];
      indegree, queue := VisitTask(tasks, i, n, indegree, queue, order);
    }
  }

  lemma QueueMore(tasks: seq<Task>, order: seq<string>, queue: seq<string>, x: string)
    requires QueuedNames(tasks, order, queue) && x !in order + queue && exists i :: 0 <= i < |tasks| && tasks[i].name == x
    ensures QueuedNames(tasks, order, queue + [x])
  {
    assert order + (queue + [x]) == (order + queue) + [x];
  }

  method VisitTask(tasks: seq<Task>, i: nat, n: string, degrees: map<string, int>, queue0: seq<string>,
                   ghost order: seq<string>) returns (indegree: map<string, int>, queue: seq<string>)
    requires Named(tasks) && i < |tasks| && n !in order && QueuedNames(tasks, order + [n], queue0)
    requires Counted(tasks[i], degrees, Elements(order), order + [n] + queue0)
    ensures QueuedNames(tasks, order + [n], queue)
    ensures Counted(tasks[i], indegree, Elements(order + [n]), order + [n] + queue)
    ensures indegree.Keys == degrees.Keys && forall m :: m in degrees && m != tasks[i].name ==> indegree[m] == degrees[m]
    ensures forall m :: m != tasks[i].name ==> (m in queue <==> m in queue0)
  {
    indegree, queue := degrees, queue0;
    var t := tasks[i];
    ghost var before, after := Elements(order), Elements(order + [n]);
    assert after == before + {n};
    assert t.deps[0..] == t.deps;
    for j := 0 to |t.deps|
      invariant QueuedNames(tasks, order + [n], queue) && indegree.Keys == degrees.Keys
      invariant forall m :: m in degrees && m != t.name ==> indegree[m] == degrees[m]
      invariant forall m :: m != t.name ==> (m in queue <==> m in queue0)
      invariant indegree[t.name] == Missing(t.deps, before) - Removed(t.deps[..j], n)
      invariant t.name in order + [n] + queue <==> indegree[t.name] == 0
    {
      var d := t.deps[j];
      assert t.deps[..j + 1] == t.deps[..j] + [d];
      if d == n {
        RemovedBound(t.deps, before, n, j);
        indegree := indegree[t.name := indegree[t.name] - 1];
        if indegree[t.name] == 0 {
          QueueMore(tasks, order + [n], queue, t.name);
          queue := queue + [t.name];
        }
      }
    }
    TakeAll(t.deps);
    RemovedAll(t.deps, before, n);
  }

  ghost function Removed(deps: seq<string>, n: string): nat {
    if deps == [] then 0 else Removed(deps[..|deps| - 1], n) + if deps[|deps| - 1] == n then 1 else 0
  }

  lemma {:induction false} RemovedAll(deps: seq<string>, done: set<string>, n: string)
    requires n !in done
    ensures Missing(deps, done) - Removed(deps, n) == Missing(deps, done + {n})
  {
    if deps != [] {
      RemovedAll(deps[..|deps| - 1], done, n);
    }
  }

  /** Before an occurrence of n is discounted, the counter is positive. */
  lemma {:induction false} RemovedBound(deps: seq<string>, done: set<string>, n: string, j: nat)
    requires n !in done && j < |deps| && deps[j] == n
    ensures Removed(deps[..j], n) < Missing(deps, done)
    decreases |deps|
  {
    var init := deps[..|deps| - 1];
    if j < |init| {
      RemovedBound(init, done, n, j);
      assert init[..j] == deps[..j];
    } else {
      assert deps[..j] == init;
      RemovedAll(init, done, n);
    }
  }

  /** The whole check, in the source's order. */
  method ValidateDag(tasks: seq<Task>) returns (e: Option<Error>, ghost order: seq<string>)
    ensures e.None? <==> ValidGrants(tasks) && ValidDag(tasks)
    ensures e.None? ==> Ordered(tasks, order) && Distinct(order) && forall n :: IsName(tasks, n) <==> n in order
  {
    order := [];
    e := CheckNames(tasks);
    if e.Some? {
      return;
    }
    var indegree: map<string, int>;
    e, indegree := CountDegrees(tasks);
    if e.Some? {
      return;
    }
    var queue := Sources(tasks, indegree);
    var visited := 0;
    assert order + queue == queue;
    while queue != []
      invariant visited == |order| && QueuedNames(tasks, order, queue)
      invariant forall i :: 0 <= i < |tasks| ==> Counted(tasks[i], indegree, Elements(order), order + queue)
      invariant Ordered(tasks, order)
      decreases |NamesOf(tasks)| - |order|
    {
      var n := queue[0];
      ghost var before := order;
      assert order + queue == order + [n] + queue[1..];
      HeadReady(tasks, order, queue, indegree);
      queue := queue[1..];
      visited := visited + 1;
      indegree, queue := Visit(tasks, n, indegree, queue, order);
      order := order + [n];
      OrderBound(tasks, order, queue);
    }
    assert order + queue == order;
    Verdict(tasks, order, indegree);
    if visited != |tasks| {
      e := Some(Invalid);
    }
  }

  ghost function NamesOf(tasks: seq<Task>): set<string> { set i | 0 <= i < |tasks| :: tasks[i].name }

  lemma OrderBound(tasks: seq<Task>, order: seq<string>, queue: seq<string>)
    requires QueuedNames(tasks, order, queue)
    ensures |order| <= |NamesOf(tasks)|
  {
    forall i | 0 <= i < |order| ensures order[i] in NamesOf(tasks) {
      assert (order + queue)[i] in order + queue;
      assert IsName(tasks, order[i]);
    }
    forall i, j | 0 <= i < j < |order| ensures order[i] != order[j] {
      assert (order + queue)[i] != (order + queue)[j];
    }
    DistinctBound(order, NamesOf(tasks));
  }

  /** The next name to visit is new and has all its dependencies visited. */
  lemma HeadReady(tasks: seq<Task>, order: seq<string>, queue: seq<string>, indegree: map<string, int>)
    requires Named(tasks) && queue != [] && QueuedNames(tasks, order, queue) && Ordered(tasks, order)
    requires forall i :: 0 <= i < |tasks| ==> Counted(tasks[i], indegree, Elements(order), order + queue)
    ensures queue[0] !in order && QueuedNames(tasks, order + [queue[0]], queue[1..])
    ensures Ordered(tasks, order + [queue[0]])
  {
    var n, all := queue[0], order + queue;
    assert all == order + [n] + queue[1..];
    assert all[|order|] == n && n in all;
    forall i | 0 <= i < |order| ensures order[i] != n {
      assert all[i] == order[i];
    }
    forall d | DependsOn(tasks, n, d) ensures d in order {
      var i :| 0 <= i < |tasks| && tasks[i].name == n && d in tasks[i].deps;
      assert Counted(tasks[i], indegree, Elements(order), all);
      assert d in Elements(order);
    }
    forall k, d | 0 <= k < |order + [n]| && DependsOn(tasks, (order + [n])[k], d) ensures d in (order + [n])[..k] {
      assert (order + [n])[..k] == order[..k];
      assert k < |order| ==> DependsOn(tasks, order[k], d);
      assert k == |order| ==> order[..k] == order;
    }
  }

  /** All tasks were visited exactly when there is no cycle. */
  lemma Verdict(tasks: seq<Task>, order: seq<string>, indegree: map<string, int>)
    requires Named(tasks) && Known(tasks) && QueuedNames(tasks, order, []) && Ordered(tasks, order)
    requires forall i :: 0 <= i < |tasks| ==> Counted(tasks[i], indegree, Elements(order), order)
    ensures |order| == |tasks| <==> NoCycle(tasks)
    ensures |order| == |tasks| ==> Distinct(order) && forall n :: IsName(tasks, n) <==> n in order
  {
    hide DependsOn, NoCycle, Ordered, Counted, Known, Named, QueuedNames, IsName, Stuck;
    assert order + [] == order;
    var names, done := NamesOf(tasks), Elements(order);
    NameCount(tasks);
    OrderCounts(tasks, order);
    if names <= done {
      assert names == done;
      AllListed(tasks, order);
      OrderedHasNoCycle(tasks, order);
    } else {
      RestIsStuck(tasks, order, indegree);
      var n :| n in names && n !in done;
      StuckHasCycle(tasks, names - done, n);
      SubsetCardinality(done, names - {n});
      assert |names - {n}| == |names| - 1;
    }
  }

  lemma AllListed(tasks: seq<Task>, order: seq<string>)
    requires NamesOf(tasks) <= Elements(order)
    ensures forall n :: IsName(tasks, n) ==> n in order
  {
    forall n | IsName(tasks, n) ensures n in order {
      var i :| 0 <= i < |tasks| && tasks[i].name == n;
      assert tasks[i].name in NamesOf(tasks);
    }
  }

  lemma OrderCounts(tasks: seq<Task>, order: seq<string>)
    requires QueuedNames(tasks, order, [])
    ensures Distinct(order) && Elements(order) <= NamesOf(tasks) && |Elements(order)| == |order|
    ensures forall n :: n in order ==> IsName(tasks, n)
  {
    assert order + [] == order;
    assert Lists(order, Elements(order));
    ListsLength(order, Elements(order));
    forall n | n in order ensures n in NamesOf(tasks) {
      assert IsName(tasks, n);
    }
  }

  lemma RestIsStuck(tasks: seq<Task>, order: seq<string>, indegree: map<string, int>)
    requires Known(tasks)
    requires forall i :: 0 <= i < |tasks| ==> Counted(tasks[i], indegree, Elements(order), order)
    ensures Stuck(tasks, NamesOf(tasks) - Elements(order))
  {
    forall n | n in NamesOf(tasks) - Elements(order)
      ensures exists d :: d in NamesOf(tasks) - Elements(order) && DependsOn(tasks, n, d)
    {
      var i :| 0 <= i < |tasks| && tasks[i].name == n;
      assert Counted(tasks[i], indegree, Elements(order), order);
      var d :| d in tasks[i].deps && d !in Elements(order);
      assert IsName(tasks, d);
      assert DependsOn(tasks, n, d);
    }
  }

  lemma {:induction false} NameCount(tasks: seq<Task>)
    requires Named(tasks)
    ensures |NamesOf(tasks)| == |tasks|
  {
    if tasks != [] {
      var init, last := tasks[..|tasks| - 1], tasks[|tasks| - 1];
      NameCount(init);
      assert forall i :: 0 <= i < |init| ==> init[i] == tasks[i];
      assert NamesOf(tasks) == NamesOf(init) + {last.name};
    }
  }

  method CheckNames(tasks: seq<Task>) returns (e: Option<Error>)
    ensures e.None? <==> ValidGrants(tasks) && Named(tasks)
  {
    hide Normalize;
    var seen: set<string> := {};
    for i := 0 to |tasks|
      invariant forall k :: 0 <= k < i ==> Normalize(tasks[k].grants).Some?
      invariant forall k :: 0 <= k < i ==> tasks[k].name in seen && tasks[k].name != ""
      invariant forall n :: n in seen ==> IsEarlier(tasks, i, n)
      invariant forall k, l :: 0 <= k < l < i ==> tasks[k].name != tasks[l].name
    {
      if Normalize(tasks[i].grants).None? {
        return Some(BadEnvelope);
      }
      if tasks[i].name == "" {
        return Some(Invalid);
      }
      if tasks[i].name in seen {
        assert IsEarlier(tasks, i, tasks[i].name);
        return Some(Invalid);
      }
      EarlierMore(tasks, i, seen);
      seen := seen + {tasks[i].name};
    }
    e := None;
  }

  ghost predicate IsEarlier(tasks: seq<Task>, i: nat, n: string)
    requires i <= |tasks|
  {
    exists k :: 0 <= k < i && tasks[k].name == n
  }

  lemma EarlierMore(tasks: seq<Task>, i: nat, seen: set<string>)
    requires i < |tasks| && forall n :: n in seen ==> IsEarlier(tasks, i, n)
    ensures forall n :: n in seen + {tasks[i].name} ==> IsEarlier(tasks, i + 1, n)
  {
    forall n | n in seen + {tasks[i].name} ensures IsEarlier(tasks, i + 1, n) {
      if n in seen {
        assert IsEarlier(tasks, i, n);
      } else {
        assert tasks[i].name == n;
      }
    }
  }

  /** Checks that dependencies are known and not the task itself, and counts them. */
  method CountDegrees(tasks: seq<Task>) returns (e: Option<Error>, indegree: map<string, int>)
    requires Named(tasks)
    ensures e.Some? ==> !(Known(tasks) && NoCycle(tasks))
    ensures e.None? ==> Known(tasks) && forall i :: 0 <= i < |tasks| ==>
      tasks[i].name in indegree && indegree[tasks[i].name] == |tasks[i].deps|
  {
    var seen := set i | 0 <= i < |tasks| :: tasks[i].name;
    indegree := map n | n in seen :: 0;
    e := None;
    for i := 0 to |tasks|
      invariant e.None? && indegree.Keys == seen == NamesOf(tasks)
      invariant forall k :: 0 <= k < i ==> indegree[tasks[k].name] == |tasks[k].deps|
      invariant forall k :: i <= k < |tasks| ==> indegree[tasks[k].name] == 0
      invariant forall k, d :: 0 <= k < i && d in tasks[k].deps ==> IsName(tasks, d)
    {
      e, indegree := CountTask(tasks, i, seen, indegree);
      if e.Some? {
        return;
      }
    }
  }

  method CountTask(tasks: seq<Task>, i: nat, seen: set<string>, degrees: map<string, int>)
    returns (e: Option<Error>, indegree: map<string, int>)
    requires Named(tasks) && i < |tasks| && degrees.Keys == seen == NamesOf(tasks) && degrees[tasks[i].name] == 0
    ensures e.Some? ==> !(Known(tasks) && NoCycle(tasks))
    ensures e.None? ==>
      && indegree == degrees[tasks[i].name := |tasks[i].deps|]
      && forall d :: d in tasks[i].deps ==> IsName(tasks, d)
  {
    var t := tasks[i];
    indegree := degrees;
    assert degrees == degrees[t.name := 0];
    for j := 0 to |t.deps|
      invariant indegree == degrees[t.name := j]
      invariant forall l :: 0 <= l < j ==> IsName(tasks, t.deps[l])
    {
      var d := t.deps[j];
      assert d in t.deps;
      if d !in seen {
        assert !IsName(tasks, d);
        return Some(Invalid), indegree;
      }
      if d == t.name {
        assert DependsOn(tasks, d, d);
        assert Cycle(tasks, [d, d]);
        return Some(Invalid), indegree;
      }
      indegree := indegree[t.name := indegree[t.name] + 1];
    }
    e := None;
  }

  method Sources(tasks: seq<Task>, indegree: map<string, int>) returns (queue: seq<string>)
    requires Named(tasks)
    requires forall i :: 0 <= i < |tasks| ==> tasks[i].name in indegree && indegree[tasks[i].name] == |tasks[i].deps|
    ensures QueuedNames(tasks, [], queue)
    ensures forall i :: 0 <= i < |tasks| ==> Counted(tasks[i], indegree, Elements([]), queue)
  {
    queue := [];
    for i := 0 to |tasks|
      invariant Distinct(queue)
      invariant forall n :: n in queue ==> IsEarlier(tasks, i, n)
      invariant forall k :: 0 <= k < i ==> (tasks[k].name in queue <==> |tasks[k].deps| == 0)
    {
      ghost var before := queue;
      LaterStill(tasks, i, queue);
      if indegree[tasks[i].name] == 0 {
        queue := queue + [tasks[i].name];
      }
    }
    SourcesCounted(tasks, indegree, queue);
  }

  /** The next name is not among earlier ones, and earlier ones stay earlier. */
  lemma LaterStill(tasks: seq<Task>, i: nat, queue: seq<string>)
    requires Named(tasks) && i < |tasks| && forall n :: n in queue ==> IsEarlier(tasks, i, n)
    ensures tasks[i].name !in queue
    ensures forall n :: n in queue + [tasks[i].name] ==> IsEarlier(tasks, i + 1, n)
    ensures forall n :: n in queue ==> IsEarlier(tasks, i + 1, n)
  {
    EarlierMore(tasks, i, Elements(queue));
    forall n | n in queue ensures n != tasks[i].name {
      assert IsEarlier(tasks, i, n);
    }
  }

  lemma SourcesCounted(tasks: seq<Task>, indegree: map<string, int>, queue: seq<string>)
    requires forall i :: 0 <= i < |tasks| ==> tasks[i].name in indegree && indegree[tasks[i].name] == |tasks[i].deps|
    requires Distinct(queue) && forall n :: n in queue ==> IsEarlier(tasks, |tasks|, n)
    requires forall k :: 0 <= k < |tasks| ==> (tasks[k].name in queue <==> |tasks[k].deps| == 0)
    ensures QueuedNames(tasks, [], queue)
    ensures forall i :: 0 <= i < |tasks| ==> Counted(tasks[i], indegree, Elements([]), queue)
  {
    assert [] + queue == queue;
    forall n | n in queue ensures IsName(tasks, n) {
      assert IsEarlier(tasks, |tasks|, n);
    }
    forall i | 0 <= i < |tasks| ensures Counted(tasks[i], indegree, Elements([]), queue) {
      NothingDone(tasks[i].deps);
    }
  }

  lemma {:induction false} NothingDone(deps: seq<string>)
    ensures Missing(deps, Elements([])) == |deps|
  {
    if deps != [] {
      NothingDone(deps[..|deps| - 1]);
    }
  }
}
