/** The order in which READY subtasks are handed to the scheduler (internal/store/memory/memory.go,
    DequeueReady): urgent first, then by deadline, then by id. */
module ReadyQueue {
  import opened Permissions
  import opened Records
  import opened StateMachine

  /** Priority descending, deadline ascending with none last, id ascending. */
  predicate Before(a: Subtask, b: Subtask) {
    if a.spec.priority != b.spec.priority then a.spec.priority > b.spec.priority
    else if a.spec.deadline.Some? && b.spec.deadline.Some? && a.spec.deadline.value != b.spec.deadline.value
    then a.spec.deadline.value < b.spec.deadline.value
    else if a.spec.deadline.None? != b.spec.deadline.None? then a.spec.deadline.Some?
    else Less(a.id, b.id)
  }

  /** On records with different ids it is a strict total order. */
  lemma BeforeTotal(a: Subtask, b: Subtask)
    ensures a.id != b.id ==> Before(a, b) || Before(b, a)
    ensures !(Before(a, b) && Before(b, a)) && !Before(a, a)
  {
    LessTotal(a.id, b.id);
    LessTotal(a.id, a.id);
  }

  lemma BeforeTransitive(a: Subtask, b: Subtask, c: Subtask)
    requires Before(a, b) && Before(b, c)
    ensures Before(a, c)
  {
    if Less(a.id, b.id) && Less(b.id, c.id) {
      LessTransitive(a.id, b.id, c.id);
    }
  }

  ghost predicate Queued(q: seq<Subtask>) { forall i, j :: 0 <= i < j < |q| ==> Before(q[i], q[j]) }

  /** Some listed record has this id. */
  ghost predicate Names(q: seq<Subtask>, id: string) { exists i :: 0 <= i < |q| && q[i].id == id }

  ghost function ReadyOnes(subtasks: map<string, Subtask>): map<string, Subtask> {
    map id | id in subtasks && subtasks[id].state == Ready :: subtasks[id]
  }

  /** The queue of at most `limit` records: in order, and whoever is left out comes after all of it. */
  ghost predicate Dequeued(q: seq<Subtask>, ready: map<string, Subtask>, limit: nat) {
    && (forall i :: 0 <= i < |q| ==> q[i].id in ready && ready[q[i].id] == q[i])
    && Queued(q) && |q| <= limit
    && forall id :: id in ready && !Names(q, id) ==> |q| == limit && forall i :: 0 <= i < |q| ==> Before(q[i], ready[id])
  }

  lemma QueuedIds(q: seq<Subtask>)
    requires Queued(q)
    ensures forall i, j :: 0 <= i < j < |q| && q[i].id == q[j].id ==> q[i] != q[j]
  {
    forall i, j | 0 <= i < j < |q| && q[i].id == q[j].id ensures q[i] != q[j] {
      BeforeTotal(q[i], q[j]);
    }
  }

  /** A record that one queue has at position k cannot come later in, or be missing from, another queue
      that agrees up to k. */
  lemma NotLater(p: seq<Subtask>, q: seq<Subtask>, ready: map<string, Subtask>, limit: nat, k: nat)
    requires Dequeued(p, ready, limit) && Dequeued(q, ready, limit) && k < |p| && k < |q| && p[..k] == q[..k]
    ensures p[k] == q[k] || Before(q[k], p[k])
  {
    if Names(q, p[k].id) {
      var j :| 0 <= j < |q| && q[j].id == p[k].id;
      if j < k {
        assert p[j] == p[..k][j] == q[..k][j] == q[j];
        QueuedIds(p);
      }
    }
  }

  lemma {:induction false} SamePrefix(p: seq<Subtask>, q: seq<Subtask>, ready: map<string, Subtask>, limit: nat, k: nat)
    requires Dequeued(p, ready, limit) && Dequeued(q, ready, limit) && k <= |p| && k <= |q|
    ensures p[..k] == q[..k]
  {
    hide Dequeued, Before;
    if k > 0 {
      SamePrefix(p, q, ready, limit, k - 1);
      NotLater(p, q, ready, limit, k - 1);
      NotLater(q, p, ready, limit, k - 1);
      BeforeTotal(p[k - 1], q[k - 1]);
      assert p[..k] == p[..k - 1] + [p[k - 1]] && q[..k] == q[..k - 1] + [q[k - 1]];
    }
  }

  lemma NotLonger(p: seq<Subtask>, q: seq<Subtask>, ready: map<string, Subtask>, limit: nat)
    requires Dequeued(p, ready, limit) && Dequeued(q, ready, limit) && |p| <= |q| && p == q[..|p|]
    ensures |p| == |q|
  {
    if |p| < |q| {
      var x := q[|p|];
      if Names(p, x.id) {
        var j :| 0 <= j < |p| && p[j].id == x.id;
        assert q[j] == q[..|p|][j] == p[j];
        QueuedIds(q);
      }
    }
  }

  /** The queue does not depend on the iteration order of the table. */
  lemma QueueIsDetermined(p: seq<Subtask>, q: seq<Subtask>, ready: map<string, Subtask>, limit: nat)
    requires Dequeued(p, ready, limit) && Dequeued(q, ready, limit)
    ensures p == q
  {
    hide Dequeued;
    if |p| <= |q| {
      SamePrefix(p, q, ready, limit, |p|);
      assert p[..|p|] == p;
      NotLonger(p, q, ready, limit);
      assert q[..|q|] == q;
    } else {
      SamePrefix(q, p, ready, limit, |q|);
      assert q[..|q|] == q;
      NotLonger(q, p, ready, limit);
    }
  }

  /** What comes first is at least as urgent as whatever comes later or is left out: of no lower priority and,
      at equal priority, of no later deadline; who has none comes after those who have one. */
  lemma UrgentFirst(q: seq<Subtask>, ready: map<string, Subtask>, limit: nat, i: nat, id: string)
    requires Dequeued(q, ready, limit) && i < |q| && id in ready && (forall j :: 0 <= j <= i ==> q[j].id != id)
    requires forall k :: k in ready ==> ready[k].id == k
    ensures var x, y := q[i].spec, ready[id].spec;
      && x.priority >= y.priority
      && (x.priority == y.priority && y.deadline.Some? ==> x.deadline.Some? && x.deadline.value <= y.deadline.value)
  {
    if Names(q, id) {
      var j :| 0 <= j < |q| && q[j].id == id;
      assert Before(q[i], q[j]);
    } else {
      assert Before(q[i], ready[id]);
    }
  }

  /** Inserts a record under a new id, keeping the order. */
  method Enter(q: seq<Subtask>, x: Subtask) returns (r: seq<Subtask>, ghost at: nat)
    requires Queued(q) && !Names(q, x.id)
    ensures at <= |q| && r == q[..at] + [x] + q[at..] && Queued(r)
  {
    var i := 0;
    while i < |q| && Before(q[i], x)
      invariant 0 <= i <= |q|
      invariant forall j :: 0 <= j < i ==> Before(q[j], x)
    {
      i := i + 1;
    }
    r, at := q[..i] + [x] + q[i..], i;
    forall j | i <= j < |q| ensures Before(x, q[j]) {
      assert q[i].id != x.id;
      BeforeTotal(x, q[i]);
      if i < j {
        BeforeTransitive(x, q[i], q[j]);
      }
    }
  }

  lemma NotYetQueued(q: seq<Subtask>, ready: seq<Subtask>, i: nat)
    requires forall i, j :: 0 <= i < j < |ready| ==> ready[i].id != ready[j].id
    requires i < |ready| && forall x :: x in q <==> x in ready[..i]
    ensures !Names(q, ready[i].id)
  {
    forall k | 0 <= k < |q| ensures q[k].id != ready[i].id {
      assert q[k] in ready[..i];
    }
  }

  /** Sorting a listing of distinct records. */
  method SortReady(ready: seq<Subtask>) returns (q: seq<Subtask>)
    requires forall i, j :: 0 <= i < j < |ready| ==> ready[i].id != ready[j].id
    ensures Queued(q) && |q| == |ready| && forall x :: x in q <==> x in ready
  {
    q := [];
    for i := 0 to |ready|
      invariant Queued(q) && |q| == i && forall x :: x in q <==> x in ready[..i]
    {
      assert ready[..i + 1] == ready[..i] + [ready[i]];
      NotYetQueued(q, ready, i);
      ghost var at;
      q, at := Enter(q, ready[i]);
    }
    assert ready[..|ready|] == ready;
  }

  /** Cutting a sorted list of all records at the limit is the queue. */
  lemma CutIsDequeued(q: seq<Subtask>, ready: map<string, Subtask>, limit: nat)
    requires Queued(q) && forall i :: 0 <= i < |q| ==> q[i].id in ready && ready[q[i].id] == q[i]
    requires forall id :: id in ready ==> Names(q, id)
    ensures Dequeued(if |q| > limit then q[..limit] else q, ready, limit)
  {
    var cut := if |q| > limit then q[..limit] else q;
    assert forall i :: 0 <= i < |cut| ==> cut[i] == q[i];
    forall id | id in ready && !Names(cut, id)
      ensures |cut| == limit && forall i :: 0 <= i < |cut| ==> Before(cut[i], ready[id])
    {
      var k :| 0 <= k < |q| && q[k].id == id;
    }
  }
}
