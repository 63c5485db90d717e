/** checkDelegateLimits of internal/core/delegate.go: depth, fanout and rework bounds, and what they
    mean for whole delegation trees. */
module Delegation {
  import opened Basics
  import opened Records

  datatype Limits = Limits(depth: nat, fanout: nat, rework: nat)

  /** Youngest first, each the parent of the one before. */
  ghost predicate ParentChain(subs: map<string, Subtask>, chain: seq<string>) {
    && chain != []
    && (forall i :: 0 <= i < |chain| ==> chain[i] in subs)
    && (forall i :: 0 < i < |chain| ==> chain[i] != "" && subs[chain[i - 1]].spec.parent == chain[i])
  }

  /** Latest attempt first, each reworking the next. */
  ghost predicate ReworkChain(subs: map<string, Subtask>, chain: seq<string>) {
    && chain != []
    && (forall i :: 0 <= i < |chain| ==> chain[i] in subs)
    && (forall i :: 0 < i < |chain| ==> chain[i] != "" && subs[chain[i - 1]].spec.reworkOf == chain[i])
  }

  ghost function Children(subs: map<string, Subtask>, p: string): set<string> {
    set c | c in subs && subs[c].spec.parent == p
  }

  /** What a delegation must find: room below the parent in depth and in width, and in the rework chain
      of a child of the same parent. */
  ghost predicate WithinLimits(subs: map<string, Subtask>, parent: string, reworkOf: string, limits: Limits) {
    && (forall chain :: ParentChain(subs, chain) && chain[0] == parent ==> |chain| <= limits.depth)
    && |Children(subs, parent)| < limits.fanout
    && (reworkOf != "" ==>
          && reworkOf in subs && subs[reworkOf].spec.parent == parent
          && forall chain :: ReworkChain(subs, chain) && chain[0] == reworkOf ==> |chain| <= limits.rework)
  }

  /** Parents and reworked subtasks exist, were created earlier, and a rework stays with its parent. */
  ghost predicate Rooted(subs: map<string, Subtask>, born: map<string, nat>) {
    forall id :: id in subs ==>
      && id in born
      && (subs[id].spec.parent != "" ==>
            subs[id].spec.parent in subs && subs[id].spec.parent in born && born[subs[id].spec.parent] < born[id])
      && (subs[id].spec.reworkOf != "" ==>
            && subs[id].spec.reworkOf in subs && subs[id].spec.reworkOf in born && born[subs[id].spec.reworkOf] < born[id]
            && subs[subs[id].spec.reworkOf].spec.parent == subs[id].spec.parent)
  }

  ghost predicate WellFounded(subs: map<string, Subtask>) { exists born :: Rooted(subs, born) }

  ghost predicate Bounded(subs: map<string, Subtask>, limits: Limits) {
    && WellFounded(subs)
    && (forall chain :: ParentChain(subs, chain) ==> |chain| <= limits.depth + 1)
    && (forall p :: p != "" ==> |Children(subs, p)| <= limits.fanout)
    && (forall chain :: ReworkChain(subs, chain) ==> |chain| <= limits.rework + 1)
  }

  // ---- steps ----

  /** No declaration changes, and what is new is neither delegated nor a rework. */
  ghost predicate RootsOnly(a: map<string, Subtask>, b: map<string, Subtask>) {
    && (forall id :: id in a ==> id in b && b[id].spec == a[id].spec)
    && (forall id :: id in b && id !in a ==> id != "" && b[id].spec.parent == "" && b[id].spec.reworkOf == "")
  }

  /** One delegated subtask is new. */
  ghost predicate OneChild(a: map<string, Subtask>, b: map<string, Subtask>, child: string, parent: string) {
    && child !in a && child != "" && b.Keys == a.Keys + {child}
    && (forall id :: id in a ==> b[id].spec == a[id].spec)
    && b[child].spec.parent == parent && parent in a && parent != ""
  }

  lemma RootsWellFounded(a: map<string, Subtask>, b: map<string, Subtask>)
    requires WellFounded(a) && RootsOnly(a, b)
    ensures WellFounded(b)
  {
    var born :| Rooted(a, born);
    var more := map id | id in b :: if id in a then born[id] else 0;
    assert Rooted(b, more);
  }

  /** Old members of the tree refer only to old members, so a chain either is old or starts anew. */
  lemma {:induction false} ChainsOld(a: map<string, Subtask>, b: map<string, Subtask>, chain: seq<string>)
    requires WellFounded(a) && forall id :: id in a ==> id in b && b[id].spec == a[id].spec
    requires chain != [] && chain[0] in a
    ensures ParentChain(b, chain) ==> ParentChain(a, chain)
    ensures ReworkChain(b, chain) ==> ReworkChain(a, chain)
  {
    var born :| Rooted(a, born);
    if ParentChain(b, chain) {
      ParentsOld(a, b, born, chain);
    }
    if ReworkChain(b, chain) {
      ReworksOld(a, b, born, chain);
    }
  }

  lemma {:induction false} ParentsOld(a: map<string, Subtask>, b: map<string, Subtask>, born: map<string, nat>,
                                      chain: seq<string>)
    requires Rooted(a, born) && forall id :: id in a ==> id in b && b[id].spec == a[id].spec
    requires ParentChain(b, chain) && chain[0] in a
    ensures ParentChain(a, chain)
  {
    if |chain| > 1 {
      var init := chain[..|chain| - 1];
      assert forall i :: 0 <= i < |init| ==> init[i] == chain[i];
      ParentsOld(a, b, born, init);
      NextParent(b, chain, |chain| - 2);
      assert init[|init| - 1] in a;
    }
  }

  lemma {:induction false} ReworksOld(a: map<string, Subtask>, b: map<string, Subtask>, born: map<string, nat>,
                                      chain: seq<string>)
    requires Rooted(a, born) && forall id :: id in a ==> id in b && b[id].spec == a[id].spec
    requires ReworkChain(b, chain) && chain[0] in a
    ensures ReworkChain(a, chain)
  {
    if |chain| > 1 {
      var init := chain[..|chain| - 1];
      assert forall i :: 0 <= i < |init| ==> init[i] == chain[i];
      ReworksOld(a, b, born, init);
      NextRework(b, chain, |chain| - 2);
      assert init[|init| - 1] in a;
    }
  }

  lemma NextParent(subs: map<string, Subtask>, chain: seq<string>, k: nat)
    requires ParentChain(subs, chain) && k + 1 < |chain|
    ensures subs[chain[k]].spec.parent == chain[k + 1] && chain[k + 1] != ""
  {}

  lemma NextRework(subs: map<string, Subtask>, chain: seq<string>, k: nat)
    requires ReworkChain(subs, chain) && k + 1 < |chain|
    ensures subs[chain[k]].spec.reworkOf == chain[k + 1] && chain[k + 1] != ""
  {}

  lemma RootChain(a: map<string, Subtask>, b: map<string, Subtask>, chain: seq<string>)
    requires RootsOnly(a, b) && chain != [] && chain[0] !in a
    ensures ParentChain(b, chain) || ReworkChain(b, chain) ==> |chain| == 1
  {
    if |chain| > 1 {
      if ParentChain(b, chain) {
        NextParent(b, chain, 0);
      }
      if ReworkChain(b, chain) {
        NextRework(b, chain, 0);
      }
    }
  }

  lemma RootsKeep(a: map<string, Subtask>, b: map<string, Subtask>, limits: Limits)
    requires Bounded(a, limits) && RootsOnly(a, b)
    ensures Bounded(b, limits)
  {
    RootsWellFounded(a, b);
    hide WellFounded, RootsOnly;
    forall chain | ParentChain(b, chain) ensures |chain| <= limits.depth + 1 {
      RootsChain(a, b, chain);
    }
    forall chain | ReworkChain(b, chain) ensures |chain| <= limits.rework + 1 {
      RootsChain(a, b, chain);
    }
    forall p | p != "" ensures |Children(b, p)| <= limits.fanout {
      RootChildren(a, b, p);
    }
  }

  lemma RootsChain(a: map<string, Subtask>, b: map<string, Subtask>, chain: seq<string>)
    requires WellFounded(a) && RootsOnly(a, b) && chain != []
    ensures ParentChain(b, chain) ==> ParentChain(a, chain) || |chain| == 1
    ensures ReworkChain(b, chain) ==> ReworkChain(a, chain) || |chain| == 1
  {
    if chain[0] in a {
      ChainsOld(a, b, chain);
    } else {
      RootChain(a, b, chain);
    }
  }

  lemma RootChildren(a: map<string, Subtask>, b: map<string, Subtask>, p: string)
    requires RootsOnly(a, b) && p != ""
    ensures Children(b, p) == Children(a, p)
  {}

  lemma ChildWellFounded(a: map<string, Subtask>, b: map<string, Subtask>, child: string, parent: string,
                         limits: Limits)
    requires WellFounded(a) && OneChild(a, b, child, parent) && WithinLimits(a, parent, b[child].spec.reworkOf, limits)
    ensures WellFounded(b)
  {
    var born :| Rooted(a, born);
    var origin := b[child].spec.reworkOf;
    var time := born[parent] + (if origin == "" then 0 else born[origin]) + 1;
    ChildRooted(a, b, child, parent, born, time);
  }

  lemma ChildRooted(a: map<string, Subtask>, b: map<string, Subtask>, child: string, parent: string,
                    born: map<string, nat>, time: nat)
    requires Rooted(a, born) && OneChild(a, b, child, parent) && born[parent] < time
    requires var origin := b[child].spec.reworkOf;
      origin != "" ==> origin in a && born[origin] < time && a[origin].spec.parent == parent
    ensures Rooted(b, born[child := time])
  {
    var more := born[child := time];
    forall id | id in b
      ensures b[id].spec.parent != "" ==> b[id].spec.parent in b && b[id].spec.parent in more && more[b[id].spec.parent] < more[id]
      ensures b[id].spec.reworkOf != "" ==>
        && b[id].spec.reworkOf in b && b[id].spec.reworkOf in more && more[b[id].spec.reworkOf] < more[id]
        && b[b[id].spec.reworkOf].spec.parent == b[id].spec.parent
    {
      if id != child {
        assert id in a;
      }
    }
  }

  /** A chain from the new child continues with an old one from its parent or its origin. */
  lemma ChildChain(a: map<string, Subtask>, b: map<string, Subtask>, child: string, parent: string, chain: seq<string>,
                   limits: Limits)
    requires WellFounded(a) && OneChild(a, b, child, parent) && WithinLimits(a, parent, b[child].spec.reworkOf, limits)
    requires chain != [] && chain[0] == child
    ensures ParentChain(b, chain) ==> |chain| <= limits.depth + 1
    ensures ReworkChain(b, chain) ==> |chain| <= limits.rework + 1
  {
    if |chain| > 1 {
      var rest := chain[1..];
      if ParentChain(b, chain) {
        assert rest[0] == parent && ParentChain(b, rest);
        ChainsOld(a, b, rest);
      }
      if ReworkChain(b, chain) {
        assert rest[0] == b[child].spec.reworkOf && ReworkChain(b, rest);
        ChainsOld(a, b, rest);
      }
    }
  }

  lemma ChildChildren(a: map<string, Subtask>, b: map<string, Subtask>, child: string, parent: string, p: string)
    requires OneChild(a, b, child, parent)
    ensures Children(b, p) == if p == parent then Children(a, p) + {child} else Children(a, p)
  {}

  lemma ChildKeeps(a: map<string, Subtask>, b: map<string, Subtask>, child: string, parent: string, limits: Limits)
    requires Bounded(a, limits) && OneChild(a, b, child, parent)
    requires WithinLimits(a, parent, b[child].spec.reworkOf, limits)
    ensures Bounded(b, limits)
  {
    ChildWellFounded(a, b, child, parent, limits);
    forall chain | ParentChain(b, chain) ensures |chain| <= limits.depth + 1 {
      OneChildChain(a, b, child, parent, chain, limits);
    }
    forall chain | ReworkChain(b, chain) ensures |chain| <= limits.rework + 1 {
      OneChildChain(a, b, child, parent, chain, limits);
    }
    forall p | p != "" ensures |Children(b, p)| <= limits.fanout {
      ChildChildren(a, b, child, parent, p);
    }
  }

  /** The check is exact: a child fits the limits if and only if the tree with it is within them. */
  lemma ChildFitsExactly(a: map<string, Subtask>, b: map<string, Subtask>, child: string, parent: string, limits: Limits)
    requires Bounded(a, limits) && OneChild(a, b, child, parent)
    ensures WithinLimits(a, parent, b[child].spec.reworkOf, limits) <==> Bounded(b, limits)
  {
    if WithinLimits(a, parent, b[child].spec.reworkOf, limits) {
      ChildKeeps(a, b, child, parent, limits);
    }
    if Bounded(b, limits) {
      ChildLeftRoom(a, b, child, parent, limits);
    }
  }

  lemma ChildLeftRoom(a: map<string, Subtask>, b: map<string, Subtask>, child: string, parent: string, limits: Limits)
    requires Bounded(b, limits) && OneChild(a, b, child, parent)
    ensures WithinLimits(a, parent, b[child].spec.reworkOf, limits)
  {
    DepthLeftRoom(a, b, child, parent, limits);
    ChildChildren(a, b, child, parent, parent);
    if b[child].spec.reworkOf != "" {
      ReworkLeftRoom(a, b, child, parent, limits);
    }
    hide WellFounded, ParentChain, ReworkChain;
    assert |Children(b, parent)| <= limits.fanout;
  }

  lemma DepthLeftRoom(a: map<string, Subtask>, b: map<string, Subtask>, child: string, parent: string, limits: Limits)
    requires Bounded(b, limits) && OneChild(a, b, child, parent)
    ensures forall chain :: ParentChain(a, chain) && chain[0] == parent ==> |chain| <= limits.depth
  {
    forall chain | ParentChain(a, chain) && chain[0] == parent ensures |chain| <= limits.depth {
      LongerParents(a, b, child, parent, chain);
      hide ParentChain;
    }
  }

  lemma ReworkLeftRoom(a: map<string, Subtask>, b: map<string, Subtask>, child: string, parent: string, limits: Limits)
    requires Bounded(b, limits) && OneChild(a, b, child, parent) && b[child].spec.reworkOf != ""
    ensures var origin := b[child].spec.reworkOf;
      && origin in a && a[origin].spec.parent == parent
      && forall chain :: ReworkChain(a, chain) && chain[0] == origin ==> |chain| <= limits.rework
  {
    var origin := b[child].spec.reworkOf;
    OriginIsOlder(b, child);
    hide WellFounded;
    forall chain | ReworkChain(a, chain) && chain[0] == origin ensures |chain| <= limits.rework {
      LongerReworks(a, b, child, chain);
      hide ReworkChain;
    }
  }

  lemma OriginIsOlder(subs: map<string, Subtask>, id: string)
    requires WellFounded(subs) && id in subs && subs[id].spec.reworkOf != ""
    ensures var origin := subs[id].spec.reworkOf;
      origin in subs && origin != id && subs[origin].spec.parent == subs[id].spec.parent
  {
    var born :| Rooted(subs, born);
  }

  lemma LongerParents(a: map<string, Subtask>, b: map<string, Subtask>, child: string, parent: string, chain: seq<string>)
    requires OneChild(a, b, child, parent) && ParentChain(a, chain) && chain[0] == parent
    ensures ParentChain(b, [child] + chain)
  {
    var longer := [child] + chain;
    forall i | 0 < i < |longer| ensures longer[i] != "" && b[longer[i - 1]].spec.parent == longer[i] {
      assert i > 1 ==> a[chain[i - 2]].spec.parent == chain[i - 1];
    }
  }

  lemma LongerReworks(a: map<string, Subtask>, b: map<string, Subtask>, child: string, chain: seq<string>)
    requires child in b && (forall id :: id in a ==> id in b && b[id].spec == a[id].spec)
    requires ReworkChain(a, chain) && chain[0] == b[child].spec.reworkOf && chain[0] != ""
    ensures ReworkChain(b, [child] + chain)
  {
    var longer := [child] + chain;
    forall i | 0 < i < |longer| ensures longer[i] != "" && b[longer[i - 1]].spec.reworkOf == longer[i] {
      assert i > 1 ==> a[chain[i - 2]].spec.reworkOf == chain[i - 1];
    }
  }

  lemma OneChildChain(a: map<string, Subtask>, b: map<string, Subtask>, child: string, parent: string,
                      chain: seq<string>,
                      limits: Limits)
    requires Bounded(a, limits) && OneChild(a, b, child, parent)
    requires WithinLimits(a, parent, b[child].spec.reworkOf, limits)
    requires chain != []
    ensures ParentChain(b, chain) ==> |chain| <= limits.depth + 1
    ensures ReworkChain(b, chain) ==> |chain| <= limits.rework + 1
  {
    if chain[0] == child {
      ChildChain(a, b, child, parent, chain, limits);
    } else if chain[0] in a {
      ChainsOld(a, b, chain);
    }
  }

  // ---- how large a delegation tree can get ----

  ghost function ChildrenOf(subs: map<string, Subtask>, parents: set<string>): set<string> {
    set id | id in subs && subs[id].spec.parent in parents
  }

  /** The subtasks whose chain reaches `root` in exactly k steps. */
  ghost function Level(subs: map<string, Subtask>, root: string, k: nat): set<string> {
    if k == 0 then {root} else ChildrenOf(subs, Level(subs, root, k - 1))
  }

  ghost function Below(subs: map<string, Subtask>, root: string, depth: nat): set<string> {
    if depth == 0 then {} else Below(subs, root, depth - 1) + Level(subs, root, depth)
  }

  ghost predicate Descends(subs: map<string, Subtask>, id: string, root: string) {
    exists chain :: ParentChain(subs, chain) && |chain| >= 2 && chain[0] == id && chain[|chain| - 1] == root
  }

  function Pow(f: nat, k: nat): nat { if k == 0 then 1 else f * Pow(f, k - 1) }

  /** f + f^2 + ... + f^depth */
  function Geometric(f: nat, depth: nat): nat {
    if depth == 0 then 0 else Geometric(f, depth - 1) + Pow(f, depth)
  }

  lemma OneMoreTimes(f: nat, n: nat)
    ensures f * (n + 1) == f * n + f
  {}

  lemma TimesMonotone(f: nat, a: nat, b: nat)
    requires a <= b
    ensures f * a <= f * b
  {}

  /** The children of a set of subtasks are at most fanout times as many. */
  lemma {:induction false} ChildrenOfSet(subs: map<string, Subtask>, parents: set<string>, f: nat)
    requires forall p :: p in parents ==> |Children(subs, p)| <= f
    ensures |ChildrenOf(subs, parents)| <= f * |parents|
  {
    if parents == {} {
      assert ChildrenOf(subs, parents) == {};
    } else {
      var p :| p in parents;
      var rest := parents - {p};
      ChildrenOfSet(subs, rest, f);
      assert ChildrenOf(subs, parents) == ChildrenOf(subs, rest) + Children(subs, p);
      hide ChildrenOf, Children;
      assert |parents| == |rest| + 1;
      OneMoreTimes(f, |rest|);
    }
  }

  lemma {:induction false} LevelNames(subs: map<string, Subtask>, root: string, k: nat)
    requires "" !in subs && root != ""
    ensures "" !in Level(subs, root, k)
  {}

  lemma {:induction false} LevelBound(subs: map<string, Subtask>, root: string, k: nat, f: nat)
    requires "" !in subs && root != "" && forall p :: p != "" ==> |Children(subs, p)| <= f
    ensures |Level(subs, root, k)| <= Pow(f, k)
  {
    if k > 0 {
      LevelBound(subs, root, k - 1, f);
      LevelNames(subs, root, k - 1);
      ChildrenOfSet(subs, Level(subs, root, k - 1), f);
      var fewer := |Level(subs, root, k - 1)|;
      hide Level, Children;
      TimesMonotone(f, fewer, Pow(f, k - 1));
    }
  }

  lemma {:induction false} BelowBound(subs: map<string, Subtask>, root: string, depth: nat, f: nat)
    requires "" !in subs && root != "" && forall p :: p != "" ==> |Children(subs, p)| <= f
    ensures |Below(subs, root, depth)| <= Geometric(f, depth)
  {
    if depth > 0 {
      BelowBound(subs, root, depth - 1, f);
      LevelBound(subs, root, depth, f);
      assert |Below(subs, root, depth)| <= |Below(subs, root, depth - 1)| + |Level(subs, root, depth)|;
    }
  }

  /** A chain of k + 1 members puts its youngest on level k. */
  lemma {:induction false} ChainLevel(subs: map<string, Subtask>, chain: seq<string>)
    requires ParentChain(subs, chain)
    ensures chain[0] in Level(subs, chain[|chain| - 1], |chain| - 1)
  {
    if |chain| > 1 {
      var rest := chain[1..];
      assert ParentChain(subs, rest);
      ChainLevel(subs, rest);
      assert rest[|rest| - 1] == chain[|chain| - 1];
    }
  }

  lemma {:induction false} LevelBelow(subs: map<string, Subtask>, root: string, k: nat, depth: nat)
    requires 1 <= k <= depth
    ensures Level(subs, root, k) <= Below(subs, root, depth)
  {
    if k < depth {
      LevelBelow(subs, root, k, depth - 1);
    }
  }

  /** With depth limit D and fanout F, no subtask ever owns more than F + F^2 + ... + F^D delegated
      descendants. */
  lemma DescendantsBounded(subs: map<string, Subtask>, limits: Limits, root: string)
    requires Bounded(subs, limits) && "" !in subs && root != ""
    ensures var all := set id | id in subs && Descends(subs, id, root);
      |all| <= Geometric(limits.fanout, limits.depth)
  {
    var all := set id | id in subs && Descends(subs, id, root);
    forall id | id in all ensures id in Below(subs, root, limits.depth) {
      var chain :| ParentChain(subs, chain) && |chain| >= 2 && chain[0] == id && chain[|chain| - 1] == root;
      ChainLevel(subs, chain);
      LevelBelow(subs, root, |chain| - 1, limits.depth);
    }
    SubsetCardinality(all, Below(subs, root, limits.depth));
    BelowBound(subs, root, limits.depth, limits.fanout);
  }

  // ---- checkDelegateLimits ----

  /** Chains from one subtask are prefixes of each other. */
  lemma {:induction false} ParentChainPrefix(subs: map<string, Subtask>, a: seq<string>, b: seq<string>)
    requires ParentChain(subs, a) && ParentChain(subs, b) && a[0] == b[0] && |a| <= |b|
    ensures a == b[..|a|]
  {
    if |a| > 1 {
      var init := a[..|a| - 1];
      assert ParentChain(subs, init);
      ParentChainPrefix(subs, init, b);
      assert a == init + [a[|a| - 1]];
      assert b[|a| - 2] == a[|a| - 2];
    }
  }

  lemma {:induction false} ReworkChainPrefix(subs: map<string, Subtask>, a: seq<string>, b: seq<string>)
    requires ReworkChain(subs, a) && ReworkChain(subs, b) && a[0] == b[0] && |a| <= |b|
    ensures a == b[..|a|]
  {
    if |a| > 1 {
      var init := a[..|a| - 1];
      assert ReworkChain(subs, init);
      ReworkChainPrefix(subs, init, b);
      assert a == init + [a[|a| - 1]];
      assert b[|a| - 2] == a[|a| - 2];
    }
  }

  /** A chain that ends at a root is as long as any. */
  lemma ParentChainMaximal(subs: map<string, Subtask>, a: seq<string>, b: seq<string>)
    requires ParentChain(subs, a) && ParentChain(subs, b) && a[0] == b[0] && subs[a[|a| - 1]].spec.parent == ""
    ensures |b| <= |a|
  {
    if |b| > |a| {
      NextParent(subs, b, |a| - 1);
      ParentChainPrefix(subs, a, b);
    }
  }

  lemma ReworkChainMaximal(subs: map<string, Subtask>, a: seq<string>, b: seq<string>)
    requires ReworkChain(subs, a) && ReworkChain(subs, b) && a[0] == b[0] && subs[a[|a| - 1]].spec.reworkOf == ""
    ensures |b| <= |a|
  {
    if |b| > |a| {
      NextRework(subs, b, |a| - 1);
      ReworkChainPrefix(subs, a, b);
    }
  }

  /** The bounded walk up the parents: accepted exactly when every chain from the parent fits. */
  method CheckDepth(subs: map<string, Subtask>, parent: string, limits: Limits) returns (ok: bool)
    requires parent in subs && WellFounded(subs) && "" !in subs
    ensures ok <==> forall chain :: ParentChain(subs, chain) && chain[0] == parent ==> |chain| <= limits.depth
  {
    var depth, cur, steps := 1, parent, 0;
    ghost var chain := [parent];
    ghost var born :| Rooted(subs, born);
    while subs[cur].spec.parent != "" && steps <= limits.depth + 1
      invariant ParentChain(subs, chain) && chain[0] == parent && chain[|chain| - 1] == cur
      invariant |chain| == depth == steps + 1 && steps <= limits.depth + 2
      decreases limits.depth + 2 - steps
    {
      depth := depth + 1;
      cur := subs[cur].spec.parent;
      steps := steps + 1;
      chain := chain + [cur];
    }
    ok := depth <= limits.depth;
    if ok {
      forall other | ParentChain(subs, other) && other[0] == parent ensures |other| <= limits.depth {
        ParentChainMaximal(subs, chain, other);
      }
    }
  }

  /** The unbounded walk along the rework chain terminates because each step leads to an earlier one. */
  method CheckRework(subs: map<string, Subtask>, origin: string, limits: Limits) returns (ok: bool)
    requires origin in subs && WellFounded(subs) && "" !in subs
    ensures ok <==> forall chain :: ReworkChain(subs, chain) && chain[0] == origin ==> |chain| <= limits.rework
  {
    var chain, cur := 1, origin;
    ghost var walk := [origin];
    ghost var born :| Rooted(subs, born);
    while subs[cur].spec.reworkOf != ""
      invariant ReworkChain(subs, walk) && walk[0] == origin && walk[|walk| - 1] == cur && |walk| == chain
      decreases born[cur]
    {
      chain := chain + 1;
      cur := subs[cur].spec.reworkOf;
      walk := walk + [cur];
    }
    ok := chain <= limits.rework;
    if ok {
      forall other | ReworkChain(subs, other) && other[0] == origin ensures |other| <= limits.rework {
        ReworkChainMaximal(subs, walk, other);
      }
    }
  }

  /** `fanout` is the store's count of the parent's children. */
  method CheckDelegateLimits(subs: map<string, Subtask>, parent: string, reworkOf: string, fanout: nat, limits: Limits)
    returns (ok: bool)
    requires parent in subs && WellFounded(subs) && "" !in subs && fanout == |Children(subs, parent)|
    ensures ok <==> WithinLimits(subs, parent, reworkOf, limits)
  {
    var deep := CheckDepth(subs, parent, limits);
    if !deep {
      return false;
    }
    if fanout >= limits.fanout {
      return false;
    }
    if reworkOf == "" {
      return true;
    }
    if reworkOf !in subs || subs[reworkOf].spec.parent != parent {
      return false;
    }
    ok := CheckRework(subs, reworkOf, limits);
  }
}
