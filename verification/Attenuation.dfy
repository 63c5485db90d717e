/** Delegation only narrows what an agent gets to see: the envelope order reaches the materialised
    board entries and artifacts of internal/store/context.go. */
module Attenuation {
  import opened Permissions
  import opened Records
  import opened StoreSpec
  import opened Invariants
  import opened StoreRuns

  /** A delegation chain, youngest first: each member is the parent of the one before. */
  ghost predicate Chain(subtasks: map<string, Subtask>, chain: seq<string>) {
    && (forall i :: 0 <= i < |chain| ==> chain[i] in subtasks && chain[i] != "")
    && (forall i :: 0 < i < |chain| ==> subtasks[chain[i - 1]].spec.parent == chain[i])
  }

  ghost predicate Narrows(low: map<string, ContextView>, high: map<string, ContextView>) {
    forall k :: k in low ==>
      && k in high && high[k].ns == low[k].ns && high[k].key == low[k].key && high[k].value == low[k].value
      && high[k].version == low[k].version && (low[k].writable ==> high[k].writable)
  }

  /** Every member of a chain lies in the mission and the envelope of every member above it. */
  lemma {:induction false} ChainAttenuates(db: DB, chain: seq<string>, i: nat)
    requires Inv(db) && Chain(db.subtasks, chain) && i < |chain|
    ensures db.subtasks[chain[0]].spec.mission == db.subtasks[chain[i]].spec.mission
    ensures Subset(db.subtasks[chain[i]].spec.grants, db.subtasks[chain[0]].spec.grants)
  {
    hide Inv, Subset;
    if i == 0 {
      SubtaskFacts(db, chain[0]);
      SubsetReflexive(db.subtasks[chain[0]].spec.grants);
    } else {
      ChainAttenuates(db, chain, i - 1);
      assert db.subtasks[chain[i - 1]].spec.parent == chain[i];
      ParentCovers(db, chain[i - 1]);
      SubsetTransitive(db.subtasks[chain[i]].spec.grants, db.subtasks[chain[i - 1]].spec.grants,
                       db.subtasks[chain[0]].spec.grants);
    }
  }

  lemma ParentCovers(db: DB, id: string)
    requires Inv(db) && id in db.subtasks && db.subtasks[id].spec.parent != ""
    ensures var p := db.subtasks[id].spec.parent;
      && p in db.subtasks && db.subtasks[p].spec.mission == db.subtasks[id].spec.mission
      && Subset(db.subtasks[p].spec.grants, db.subtasks[id].spec.grants)
  {
    assert Placed(db.subtasks, id, db.subtasks[id].spec);
  }

  /** A covering grant admits what the covered one admits, at least as strongly. */
  lemma CoverAdmits(p: BoardGrant, c: BoardGrant, e: BoardEntry)
    requires Covers(p, c) && ValidGrant(p) && Admits(c, e)
    ensures Admits(p, e) && (c.mode == READ_WRITE ==> p.mode == READ_WRITE)
  {}

  lemma ViewsNarrow(board: map<string, BoardEntry>, m: string, high: Envelope, low: Envelope)
    requires Normal(high) && Normal(low) && Subset(high, low)
    ensures Narrows(BoardViews(board, m, low.views), BoardViews(board, m, high.views))
  {
    var a, b := BoardViews(board, m, low.views), BoardViews(board, m, high.views);
    forall k | k in a ensures k in b && (a[k].writable ==> b[k].writable) {
      EntryNarrows(board[k], m, high, low);
    }
  }

  lemma EntryNarrows(e: BoardEntry, m: string, high: Envelope, low: Envelope)
    requires Normal(high) && Normal(low) && Subset(high, low) && Visible(low.views, m, e)
    ensures Visible(high.views, m, e) && (Writable(low.views, e) ==> Writable(high.views, e))
  {
    forall c | c in low.views && Admits(c, e)
      ensures exists p :: p in high.views && Admits(p, e) && (c.mode == READ_WRITE ==> p.mode == READ_WRITE)
    {
      var p :| p in high.views && Covers(p, c);
      NormalViewsValid(high, p);
      CoverAdmits(p, c, e);
    }
  }

  lemma NormalViewsValid(e: Envelope, g: BoardGrant)
    requires Normal(e) && g in e.views
    ensures ValidGrant(g)
  {
    var i :| 0 <= i < |e.views| && e.views[i] == g;
    assert NormalViews(e.views) == e.views;
  }

  lemma ArtifactsNarrow(artifacts: map<string, Artifact>, m: string, high: Envelope, low: Envelope)
    requires Normal(high) && Normal(low) && Subset(high, low)
    ensures Extends(ArtifactsFor(artifacts, m, low.artifactRefs), ArtifactsFor(artifacts, m, high.artifactRefs))
  {}

  /** In every reachable state, whatever would be materialised for a delegated subtask would also be
      materialised for each of its ancestors, with a mode at least as strong. */
  lemma AttenuationReachesData(calls: seq<Call>, chain: seq<string>, i: nat, lease: string, lease': string)
    requires Legal(calls) && Chain(Run(calls).subtasks, chain) && i < |chain|
    ensures var db := Run(calls);
      var low, high := ContextOf(db, lease, db.subtasks[chain[0]]), ContextOf(db, lease', db.subtasks[chain[i]]);
      && low.Some? && high.Some?
      && Narrows(low.value.views, high.value.views) && Extends(low.value.artifacts, high.value.artifacts)
  {
    var db := Run(calls);
    RunKeeps(calls);
    ChainAttenuates(db, chain, i);
    SubtaskFacts(db, chain[0]);
    SubtaskFacts(db, chain[i]);
    hide Inv, Subset, Run, Legal;
    var m, high, low := db.subtasks[chain[0]].spec.mission, db.subtasks[chain[i]].spec.grants, db.subtasks[chain[0]].spec.grants;
    ViewsNarrow(db.board, m, high, low);
    ArtifactsNarrow(db.artifacts, m, high, low);
  }
}
