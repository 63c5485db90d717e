/** From an accepted task list to the subtasks of a new mission (internal/core/service.go, createMission). */
module Plans {
  import opened Basics
  import opened StateMachine
  import opened Permissions
  import opened Records
  import opened StoreOps
  import opened Dag
  import opened Orchestrator

  /** Mission ids are "msn_" and random digits; the prefix is cut off. */
  function SubId(mission: string, name: string): string
    requires |mission| >= 4
  {
    "sub_" + mission[4..] + "_" + name
  }

  lemma SubIdInjective(mission: string, a: string, b: string)
    requires |mission| >= 4
    ensures SubId(mission, a) == SubId(mission, b) <==> a == b
  {
    var k := 4 + |mission[4..]| + 1;
    assert SubId(mission, a)[k..] == a && SubId(mission, b)[k..] == b;
  }

  function DepIds(mission: string, deps: seq<string>): (r: seq<string>)
    requires |mission| >= 4
    ensures |r| == |deps| && forall i :: 0 <= i < |r| ==> r[i] == SubId(mission, deps[i])
  {
    seq(|deps|, i requires 0 <= i < |deps| => SubId(mission, deps[i]))
  }

  function SubtaskOf(mission: string, t: Task): Subtask
    requires |mission| >= 4 && Normalize(t.grants).Some?
  {
    Subtask(SubId(mission, t.name),
            TaskSpec(mission, "", t.kind, t.skills, DepIds(mission, t.deps), t.priority, t.deadline, 0, t.maxAttempts,
                     t.onTimeout, "", Normalize(t.grants).value, t.question, t.options),
            Pending, "", "", 0, "", 0, "", None)
  }

  function PlanOf(mission: string, tasks: seq<Task>): (subs: seq<Subtask>)
    requires |mission| >= 4 && ValidGrants(tasks)
    ensures |subs| == |tasks| && forall i :: 0 <= i < |subs| ==> subs[i] == SubtaskOf(mission, tasks[i])
  {
    seq(|tasks|, i requires 0 <= i < |tasks| => SubtaskOf(mission, tasks[i]))
  }

  /** Position in a topological order of the names. */
  ghost function RankOf(mission: string, order: seq<string>): map<string, nat>
    requires |mission| >= 4
  {
    if order == [] then map[]
    else RankOf(mission, order[..|order| - 1])[SubId(mission, order[|order| - 1]) := |order| - 1]
  }

  lemma {:induction false} RankOfAt(mission: string, order: seq<string>, k: nat)
    requires |mission| >= 4 && Distinct(order) && k < |order|
    ensures SubId(mission, order[k]) in RankOf(mission, order) && RankOf(mission, order)[SubId(mission, order[k])] == k
  {
    if k < |order| - 1 {
      RankOfAt(mission, order[..|order| - 1], k);
      SubIdInjective(mission, order[k], order[|order| - 1]);
    }
  }

  /** No subtask of the new mission is in the store yet. */
  ghost predicate FreshMission(subtasks: map<string, Subtask>, mission: string)
    requires |mission| >= 4
  {
    forall name :: SubId(mission, name) !in subtasks
  }

  lemma PlanIsNew(subtasks: map<string, Subtask>, mission: string, tasks: seq<Task>)
    requires |mission| >= 4 && ValidGrants(tasks) && Named(tasks) && FreshMission(subtasks, mission)
    ensures NewRoots(subtasks, mission, PlanOf(mission, tasks))
  {
    var subs := PlanOf(mission, tasks);
    hide Normalize;
    forall i | 0 <= i < |subs| ensures NewRoot(mission, subs[i]) && subs[i].id !in subtasks {
      NormalizeIdempotent(tasks[i].grants);
      assert subs[i].id[0] == 's';
    }
    forall i, j | 0 <= i < j < |subs| ensures subs[i].id != subs[j].id {
      SubIdInjective(mission, tasks[i].name, tasks[j].name);
    }
  }

  /** What validateDAG accepts becomes a valid plan. */
  lemma PlanIsValid(m: Mission, tasks: seq<Task>, order: seq<string>)
    requires |m.id| >= 4 && m.status == Active && ValidGrants(tasks) && Known(tasks)
    requires Ordered(tasks, order) && Distinct(order) && forall n :: IsName(tasks, n) <==> n in order
    ensures ValidPlan(m, PlanOf(m.id, tasks), RankOf(m.id, order))
  {
    var subs, rank := PlanOf(m.id, tasks), RankOf(m.id, order);
    hide Normalize, SubId, RankOf, Ordered;
    forall i | 0 <= i < |subs| ensures subs[i].id in rank {
      NameRanked(m.id, tasks, order, tasks[i].name);
    }
    forall i, d | 0 <= i < |subs| && d in subs[i].spec.deps
      ensures exists j :: 0 <= j < |subs| && subs[j].id == d
      ensures d in rank && rank[d] < rank[subs[i].id]
    {
      var l :| 0 <= l < |tasks[i].deps| && DepIds(m.id, tasks[i].deps)[l] == d;
      var name := tasks[i].deps[l];
      assert name in tasks[i].deps && IsName(tasks, name);
      var j :| 0 <= j < |tasks| && tasks[j].name == name;
      assert subs[j].id == d;
      DependencyRanked(m.id, tasks, order, i, name);
    }
  }

  lemma NameRanked(mission: string, tasks: seq<Task>, order: seq<string>, n: string)
    requires |mission| >= 4 && Distinct(order) && IsName(tasks, n) && forall n :: IsName(tasks, n) <==> n in order
    ensures SubId(mission, n) in RankOf(mission, order)
  {
    var k :| 0 <= k < |order| && order[k] == n;
    RankOfAt(mission, order, k);
  }

  lemma DependencyRanked(mission: string, tasks: seq<Task>, order: seq<string>, i: nat, d: string)
    requires |mission| >= 4 && Ordered(tasks, order) && Distinct(order) && forall n :: IsName(tasks, n) <==> n in order
    requires i < |tasks| && d in tasks[i].deps
    ensures var rank := RankOf(mission, order);
      && SubId(mission, d) in rank && SubId(mission, tasks[i].name) in rank
      && rank[SubId(mission, d)] < rank[SubId(mission, tasks[i].name)]
  {
    assert IsName(tasks, tasks[i].name);
    var k :| 0 <= k < |order| && order[k] == tasks[i].name;
    assert DependsOn(tasks, order[k], d);
    var j :| 0 <= j < k && order[..k][j] == d;
    RankOfAt(mission, order, k);
    RankOfAt(mission, order, j);
  }
}
