/** The condition sweep of internal/core/trigger.go, evalConditionWakes, in its full and its incremental
    form, and how they differ. */
module ConditionSweeps {
  import opened Basics
  import opened StateMachine
  import opened Records
  import opened StoreSpec
  import opened Invariants
  import opened StoreOps
  import opened Triggers
  import opened Footprints
  import opened ConditionWakes
  import opened MemoryStore
  import Conditions

  /** How stored bytes are read, what an expression sees besides the board (its mission, its registration
      and the clock), and what the operators mean. */
  datatype Meaning = Meaning(parse: Parse, env: (Mission, Subtask, int) -> Conditions.Env, ops: Conditions.Ops)

  predicate AwaitsCondition(sub: Subtask) {
    && sub.state == Waiting && sub.wake.Some? && sub.wake.value.kind.WCondition? && sub.wake.value.condition.Some?
  }

  /** The condition holds on the board of its mission, and the registration is not overdue. */
  ghost predicate Fires(db: DB, sub: Subtask, now: int, mean: Meaning) {
    && AwaitsCondition(sub) && !Overdue(sub, now) && sub.spec.mission in db.missions
    && Holds(db.board, sub.spec.mission, sub.wake.value.condition.value, mean.parse,
             mean.env(db.missions[sub.spec.mission], sub, now), mean.ops)
  }

  /** The registrations that an evaluation after a write to `scope` (mission and "namespace/key") looks at;
      the full sweep looks at all. */
  ghost predicate InScope(sub: Subtask, scope: Option<(string, string)>) {
    AwaitsCondition(sub) &&
    (scope.Some? ==> sub.spec.mission == scope.value.0 && RefsChanged(sub.wake.value.condition.value, scope.value.1))
  }

  ghost function Fired(db: DB, scope: Option<(string, string)>, now: int, mean: Meaning): set<string> {
    set id | id in db.subtasks && InScope(db.subtasks[id], scope) && Fires(db, db.subtasks[id], now, mean)
  }

  function Roused(sub: Subtask): Subtask { Moving(sub, Ready).(wake := None) }

  /** `base` after the named subtasks have been woken. */
  ghost function RousedAll(base: map<string, Subtask>, woken: set<string>): map<string, Subtask> {
    map id | id in base :: if id in woken then Roused(base[id]) else base[id]
  }

  // ---- one evaluation ----

  /** Mission ids hold no slash and keys are not empty, as the service ensures: then the prefix of a board key
      shows whose entry it is. Namespaces are free. */
  ghost predicate PlainBoard(board: map<string, BoardEntry>, m: string) {
    PlainMissions(board) && Conditions.NoSlash(m) && forall k :: k in board ==> board[k].key != ""
  }

  ghost function EntriesIn(listing: seq<BoardEntry>, parse: Parse): set<Entry> {
    set i | 0 <= i < |listing| :: EntryOf(listing[i], parse)
  }

  lemma {:induction false} CutPlain(r: string)
    ensures Conditions.NoSlash(Conditions.Cut(r)) && |Conditions.Cut(r)| <= |r|
  {
    if r != "" && r[0] != '/' {
      CutPlain(r[1..]);
    }
  }

  /** The first segment and its slash begin the name. */
  lemma {:induction false} CutPrefix(ns: string, key: string)
    ensures Conditions.Cut(ns) + "/" <= NameOf(ns, key)
  {
    var n := NameOf(ns, key);
    if ns != "" && ns[0] != '/' {
      CutPrefix(ns[1..], key);
      var cut := Conditions.Cut(ns[1..]);
      assert Conditions.Cut(ns) == [ns[0]] + cut;
      assert n == [ns[0]] + NameOf(ns[1..], key);
      assert Conditions.Cut(ns) + "/" == [ns[0]] + (cut + "/");
    } else {
      assert n[..1] == "/";
    }
  }

  /** Which board keys continue a prefix: those of the mission whose namespace begins with the segment. */
  lemma PrefixMeans(e: BoardEntry, m: string, n: string)
    requires Conditions.NoSlash(e.mission) && Conditions.NoSlash(m) && Conditions.NoSlash(n) && e.key != ""
    ensures ListPrefix(m, n) < BoardKey(e.mission, e.ns, e.key)
       <==> e.mission == m && (n == "" || Conditions.Cut(e.ns) == n)
  {
    var k, name := BoardKey(e.mission, e.ns, e.key), NameOf(e.ns, e.key);
    KeyIsName(e.mission, e.ns, e.key);
    Conditions.CutSlash(e.ns, e.key);
    CutPrefix(e.ns, e.key);
    CutPlain(e.ns);
    if ListPrefix(m, n) < k {
      var rest := k[|m| + 1..];
      assert k == m + "/" + rest;
      SameMission(e.mission, m, name, rest);
      if n != "" {
        assert name == n + "/" + name[|n| + 1..] by {
          assert k == ListPrefix(m, n) + k[|ListPrefix(m, n)|..];
        }
        Conditions.CutName(n, name[|n| + 1..]);
      }
    }
    if e.mission == m && n != "" && Conditions.Cut(e.ns) == n {
      assert name == (n + "/") + name[|n| + 1..];
      assert k == ListPrefix(m, n) + name[|n| + 1..];
    }
    if e.mission == m && n == "" {
      assert k == ListPrefix(m, n) + name;
    }
  }

  /** What a listing holds. */
  lemma ListingChooses(board: map<string, BoardEntry>, m: string, n: string, out: seq<BoardEntry>, keys: seq<string>,
                       parse: Parse)
    requires BoardInv(board) && PlainBoard(board, m) && Conditions.NoSlash(n)
    requires Lists(keys, set k | k in board && ListPrefix(m, n) < k) && |out| == |keys|
    requires forall i :: 0 <= i < |out| ==> keys[i] in board && out[i] == board[keys[i]]
    ensures EntriesIn(out, parse) == Chosen(EntriesOf(board, m, parse), {n})
  {
    hide BoardKey, ListPrefix, Conditions.NoSlash, Conditions.Cut;
    forall k | k in board
      ensures ListPrefix(m, n) < k <==> board[k].mission == m && (n == "" || Conditions.Cut(board[k].ns) == n)
    {
      PrefixMeans(board[k], m, n);
    }
    var chosen := Chosen(EntriesOf(board, m, parse), {n});
    forall x | x in EntriesIn(out, parse) ensures x in chosen {
      var i :| 0 <= i < |out| && EntryOf(out[i], parse) == x;
      assert keys[i] in keys;
    }
    forall x | x in chosen ensures x in EntriesIn(out, parse) {
      var k :| k in board && board[k].mission == m && EntryOf(board[k], parse) == x;
      assert k in keys;
      var i :| 0 <= i < |keys| && keys[i] == k;
      assert EntryOf(out[i], parse) == x;
    }
  }

  /** Puts a listing into the view; `plain` says whether the entries cannot disagree. */
  method Load(listing: seq<BoardEntry>, view: Conditions.Slices, parse: Parse, ghost plain: bool, ghost loaded: set<Entry>)
    returns (r: Conditions.Slices)
    requires plain ==> view == Nested(loaded) && Functional(loaded + EntriesIn(listing, parse))
    ensures plain ==> r == Nested(loaded + EntriesIn(listing, parse))
  {
    hide Nested, Functional;
    r := view;
    assert loaded + EntriesIn(listing[..0], parse) == loaded;
    for i := 0 to |listing|
      invariant plain ==> r == Nested(loaded + EntriesIn(listing[..i], parse))
    {
      var e := listing[i];
      LoadOneMore(listing, i, parse, plain, loaded);
      var slice := if e.ns in r then r[e.ns] else map[];
      r := r[e.ns := slice[e.key := Decoded(e.value, parse)]];
    }
    assert listing[..|listing|] == listing;
  }

  lemma LoadOneMore(listing: seq<BoardEntry>, i: nat, parse: Parse, plain: bool, loaded: set<Entry>)
    requires i < |listing| && (plain ==> Functional(loaded + EntriesIn(listing, parse)))
    ensures var x, before := EntryOf(listing[i], parse), loaded + EntriesIn(listing[..i], parse);
      (plain ==>
         Nested(loaded + EntriesIn(listing[..i + 1], parse)) == Conditions.Written(Nested(before), x.ns, x.key, x.value))
  {
    hide Nested;
    var x, before := EntryOf(listing[i], parse), loaded + EntriesIn(listing[..i], parse);
    assert listing[..i + 1] == listing[..i] + [listing[i]];
    forall y ensures y in EntriesIn(listing[..i + 1], parse) <==> y in EntriesIn(listing[..i], parse) || y == x {
      if y in EntriesIn(listing[..i], parse) {
        var j :| 0 <= j < i && EntryOf(listing[..i][j], parse) == y;
        assert EntryOf(listing[..i + 1][j], parse) == y;
      }
      assert EntryOf(listing[..i + 1][i], parse) == x;
    }
    assert loaded + EntriesIn(listing[..i + 1], parse) == before + {x};
    forall y | y in before + {x} ensures y in loaded + EntriesIn(listing, parse) {
      if y in EntriesIn(listing[..i], parse) {
        var j :| 0 <= j < i && EntryOf(listing[..i][j], parse) == y;
        assert EntryOf(listing[j], parse) == y;
      }
      assert EntryOf(listing[i], parse) in EntriesIn(listing, parse);
    }
    if plain {
      NestedPut(before, x);
    }
  }

  lemma ChosenMore(entries: set<Entry>, done: set<string>, n: string)
    ensures Chosen(entries, done) + Chosen(entries, {n}) == Chosen(entries, done + {n})
    ensures Chosen(entries, {}) == {} && Chosen(entries, {""}) == entries
    ensures Functional(entries) ==> Functional(Chosen(entries, done + {n}))
  {}

  /** celBoardView: everything for a wildcard, otherwise a listing for the first segment of each reference, in
      any order. */
  method CelBoardView(st: Store, m: string, refs: seq<string>, wildcard: bool, parse: Parse) returns (view: Conditions.Slices)
    requires BoardInv(st.board)
    ensures PlainBoard(st.board, m) ==>
      view == if wildcard then SlicesOf(st.board, m, parse)
              else Conditions.Restricted(SlicesOf(st.board, m, parse), Conditions.Namespaces(Elements(refs)))
  {
    assert Conditions.NoSlash("");
    hide Nested, Functional, EntriesOf, EntriesIn, Chosen, PlainBoard, BoardInv, Conditions.NoSlash, Conditions.Cut,
      ListPrefix;
    ghost var plain, all := PlainBoard(st.board, m), EntriesOf(st.board, m, parse);
    EntriesFunctional(st.board, m, parse);
    view := map[];
    EmptyView();
    ghost var done: set<string> := {};
    ChosenMore(all, {}, "");
    if wildcard {
      view := LoadSegment(st, m, "", view, parse, {});
      assert {} + {""} == {""};
      return;
    }
    var nss := set i | 0 <= i < |refs| :: Conditions.Cut(refs[i]);
    var todo := nss;
    while todo != {}
      invariant todo <= nss && done == nss - todo && (plain ==> view == Nested(Chosen(all, done)))
    {
      var n :| n in todo;
      CutsArePlain(refs, n);
      view := LoadSegment(st, m, n, view, parse, done);
      todo, done := todo - {n}, done + {n};
    }
    CutsAreNamespaces(refs);
    assert done == Conditions.Namespaces(Elements(refs));
    NestedRestricted(all, done);
  }

  lemma EmptyView()
    ensures Nested({}) == map[]
  {}

  lemma CutsArePlain(refs: seq<string>, n: string)
    requires n in set i | 0 <= i < |refs| :: Conditions.Cut(refs[i])
    ensures Conditions.NoSlash(n)
  {
    var i :| 0 <= i < |refs| && Conditions.Cut(refs[i]) == n;
    CutPlain(refs[i]);
  }

  lemma CutsAreNamespaces(refs: seq<string>)
    ensures (set i | 0 <= i < |refs| :: Conditions.Cut(refs[i])) == Conditions.Namespaces(Elements(refs))
  {
    hide Conditions.Cut;
    var nss := set i | 0 <= i < |refs| :: Conditions.Cut(refs[i]);
    forall n | n in Conditions.Namespaces(Elements(refs)) ensures n in nss {
      var r :| r in Elements(refs) && Conditions.Cut(r) == n;
      var i :| 0 <= i < |refs| && refs[i] == r;
      assert Conditions.Cut(refs[i]) == n;
    }
    forall n | n in nss ensures n in Conditions.Namespaces(Elements(refs)) {
      var i :| 0 <= i < |refs| && Conditions.Cut(refs[i]) == n;
      assert refs[i] in Elements(refs);
    }
  }

  /** One listing, put into the view. */
  method LoadSegment(st: Store, m: string, n: string, view: Conditions.Slices, parse: Parse, ghost done: set<string>)
    returns (r: Conditions.Slices)
    requires BoardInv(st.board) && Conditions.NoSlash(n)
    requires PlainBoard(st.board, m) ==> view == Nested(Chosen(EntriesOf(st.board, m, parse), done))
    ensures PlainBoard(st.board, m) ==> r == Nested(Chosen(EntriesOf(st.board, m, parse), done + {n}))
  {
    hide Nested, Functional, EntriesOf, EntriesIn, Chosen, PlainBoard, BoardInv, Conditions.NoSlash, ListPrefix, Lists;
    ghost var all := EntriesOf(st.board, m, parse);
    EntriesFunctional(st.board, m, parse);
    var listing;
    ghost var keys;
    listing, keys := st.BoardList(m, n);
    if PlainBoard(st.board, m) {
      ListingChooses(st.board, m, n, listing, keys, parse);
    }
    ChosenMore(all, done, n);
    r := Load(listing, view, parse, PlainBoard(st.board, m), Chosen(all, done));
  }

  ghost predicate SameValue(e: Conditions.Expr, env: Conditions.Env, ops: Conditions.Ops, a: Conditions.Slices, b: Conditions.Slices) {
    Conditions.Eval(e, env[Conditions.BOARD := Conditions.BoardValue(a)], ops)
    == Conditions.Eval(e, env[Conditions.BOARD := Conditions.BoardValue(b)], ops)
  }

  /** Extraction and loading together: whatever the operators mean, the loaded part of the board gives the
      condition the value it has on the whole board. */
  method LoadForCondition(st: Store, m: string, e: Conditions.Expr, parse: Parse) returns (view: Conditions.Slices)
    requires BoardInv(st.board)
    ensures PlainBoard(st.board, m) ==>
      forall env: Conditions.Env, ops: Conditions.Ops :: SameValue(e, env, ops, view, SlicesOf(st.board, m, parse))
  {
    hide PlainBoard, SlicesOf, BoardInv;
    var refs, wildcard := ExtractBoardRefs(e);
    view := CelBoardView(st, m, refs, wildcard, parse);
    if !wildcard && PlainBoard(st.board, m) {
      forall env: Conditions.Env, ops: Conditions.Ops ensures SameValue(e, env, ops, view, SlicesOf(st.board, m, parse)) {
        Conditions.ReferencedNamespacesSuffice(e, env, ops, SlicesOf(st.board, m, parse));
      }
    }
  }

  /** evalCondition: true, false, or an error for an expression that does not compile. */
  method EvalCondition(st: Store, m: string, c: Condition, mean: Meaning, env: Conditions.Env) returns (ok: Option<bool>)
    requires BoardInv(st.board)
    ensures ok.None? <==> c.formula == Some(Uncompilable)
    ensures ok.Some? && PlainBoard(st.board, m) ==> (ok.value <==> Holds(st.board, m, c, mean.parse, env, mean.ops))
  {
    hide PlainBoard, SlicesOf;
    match c.formula
    case Some(Uncompilable) => ok := None;
    case None =>
      var k := m + "/" + c.board;
      ok := Some(k in st.board && (c.op == "exists" || (c.value.Some? && mean.parse(st.board[k].value) == c.value)));
    case Some(Compiled(expr)) =>
      var view := LoadForCondition(st, m, expr, mean.parse);
      assert PlainBoard(st.board, m) ==> SameValue(expr, env, mean.ops, view, SlicesOf(st.board, m, mean.parse));
      ok := Some(Conditions.Eval(expr, env[Conditions.BOARD := Conditions.BoardValue(view)], mean.ops) == Conditions.VBool(true));
  }

  // ---- the two forms agree ----

  /** After a board write the incremental evaluation wakes only what the full one would, and whatever it
      misses probes with has() a namespace that this write made appear or disappear. Everything that was going
      to fire before the write is assumed to have been woken already. */
  lemma IncrementalIsFull(db: DB, e: BoardEntry, expected: int, now: int, mean: Meaning)
    requires BoardInv(db.board) && PlainMissions(db.board) && Conditions.NoSlash(e.mission)
    requires forall id :: id in db.subtasks ==> Conditions.NoSlash(db.subtasks[id].spec.mission)
    requires Fired(db, None, now, mean) == {}
    ensures var d := StoreSpec.BoardPut(db, e, expected).0;
      var full, some := Fired(d, None, now, mean), Fired(d, Some((e.mission, NameOf(e.ns, e.key))), now, mean);
      && some <= full
      && forall id :: id in full - some ==>
           d.subtasks[id].spec.mission == e.mission
           && exists ns :: ns in Probed(d.subtasks[id].wake.value.condition.value)
                && Toggled(SlicesOf(db.board, e.mission, mean.parse), SlicesOf(d.board, e.mission, mean.parse), ns)
  {
    hide SlicesOf, Holds, RefsChanged, Probed, Overdue, BoardInv, PlainMissions, Conditions.NoSlash, Toggled;
    var d := StoreSpec.BoardPut(db, e, expected).0;
    assert d.subtasks == db.subtasks && d.missions == db.missions;
    var scope := Some((e.mission, NameOf(e.ns, e.key)));
    forall id | id in Fired(d, None, now, mean) && id !in Fired(d, scope, now, mean)
      ensures d.subtasks[id].spec.mission == e.mission
      ensures exists ns :: ns in Probed(d.subtasks[id].wake.value.condition.value)
                && Toggled(SlicesOf(db.board, e.mission, mean.parse), SlicesOf(d.board, e.mission, mean.parse), ns)
    {
      assert id !in Fired(db, None, now, mean);
      SkippedDidNotFire(db, e, expected, now, mean, id);
    }
  }

  /** A registration out of scope that fires now but did not before is one of the exceptions. */
  lemma SkippedDidNotFire(db: DB, e: BoardEntry, expected: int, now: int, mean: Meaning, id: string)
    requires BoardInv(db.board) && PlainMissions(db.board) && Conditions.NoSlash(e.mission)
    requires id in db.subtasks && Conditions.NoSlash(db.subtasks[id].spec.mission)
    requires !InScope(db.subtasks[id], Some((e.mission, NameOf(e.ns, e.key))))
    requires !Fires(db, db.subtasks[id], now, mean)
    requires Fires(StoreSpec.BoardPut(db, e, expected).0, db.subtasks[id], now, mean)
    ensures db.subtasks[id].spec.mission == e.mission
    ensures exists ns :: ns in Probed(db.subtasks[id].wake.value.condition.value)
              && Toggled(SlicesOf(db.board, e.mission, mean.parse),
                         SlicesOf(StoreSpec.BoardPut(db, e, expected).0.board, e.mission, mean.parse), ns)
  {
    var sub, d := db.subtasks[id], StoreSpec.BoardPut(db, e, expected).0;
    var m, c := sub.spec.mission, sub.wake.value.condition.value;
    assert d.missions == db.missions;
    hide SlicesOf, Holds, RefsChanged, Probed, Overdue, BoardInv, PlainMissions, Conditions.NoSlash, StoreSpec.BoardPut, Toggled;
    var a, b := SlicesOf(db.board, m, mean.parse), SlicesOf(d.board, m, mean.parse);
    if m != e.mission {
      OtherMissionPut(db, e, expected, m, mean.parse);
      NothingToggled(a);
    }
    if forall ns :: ns in Probed(c) ==> !Toggled(a, b, ns) {
      SkippedConditionsAreUnchanged(db, e, expected, m, c, mean.parse, mean.env(db.missions[m], sub, now), mean.ops);
    }
  }

  lemma NothingToggled(a: Conditions.Slices)
    ensures forall ns :: !Toggled(a, a, ns)
  {}

  lemma OtherMissionPut(db: DB, e: BoardEntry, expected: int, m: string, parse: Parse)
    requires BoardInv(db.board) && PlainMissions(db.board) && Conditions.NoSlash(m) && Conditions.NoSlash(e.mission)
    requires m != e.mission
    ensures SlicesOf(StoreSpec.BoardPut(db, e, expected).0.board, m, parse) == SlicesOf(db.board, m, parse)
  {
    var r := StoreSpec.BoardPut(db, e, expected);
    if r.1.Ok? {
      OtherMission(db.board, r.1.value, m, parse);
    }
  }

  // ---- the sweep ----

  ghost predicate ConditionListing(subs: seq<Subtask>, base: map<string, Subtask>) {
    && (forall i :: 0 <= i < |subs| ==> subs[i].id in base && base[subs[i].id] == subs[i])
    && (forall i, j :: 0 <= i < j < |subs| ==> subs[i].id != subs[j].id)
    && (forall id :: id in base && AwaitsCondition(base[id]) ==> exists i :: 0 <= i < |subs| && subs[i].id == id)
  }

  ghost function FiredAmong(db: DB, subs: seq<Subtask>, scope: Option<(string, string)>, now: int, mean: Meaning): set<string> {
    set i | 0 <= i < |subs| && InScope(subs[i], scope) && Fires(db, subs[i], now, mean) :: subs[i].id
  }

  /** The sweep after some registrations: exactly those that fire have been woken. */
  ghost predicate SweepState(db: DB, d: DB, woken: set<string>) {
    && Sound(db, d) && d.board == db.board && d.missions == db.missions
    && d.subtasks == RousedAll(db.subtasks, woken) && d.eventSeq == db.eventSeq + |woken|
  }

  lemma SweepStarts(db: DB)
    requires Inv(db)
    ensures SweepState(db, db, {})
  {
    hide Inv;
    Unchanged(db);
    assert RousedAll(db.subtasks, {}) == db.subtasks;
  }

  lemma RouseStep(db: DB, d: DB, woken: set<string>, sub: Subtask, now: int)
    requires SweepState(db, d, woken) && sub.id in db.subtasks && db.subtasks[sub.id] == sub && sub.id !in woken
    requires sub.state == Waiting && !Overdue(sub, now)
    ensures SweepState(db, WakeSubtask(d, sub.id, sub.version, System("trigger"), now).0, woken + {sub.id})
  {
    var e := WakeSubtask(d, sub.id, sub.version, System("trigger"), now).0;
    assert d.subtasks[sub.id] == sub;
    WakeRouses(d, sub, now);
    hide Inv, Grows, WakeSubtask, Overdue;
    WakeSubtaskKeeps(d, sub.id, sub.version, System("trigger"), now);
    SoundThen(db, d, e);
    RouseOneMore(db.subtasks, woken, sub.id);
  }

  lemma WakeRouses(d: DB, sub: Subtask, now: int)
    requires sub.id in d.subtasks && d.subtasks[sub.id] == sub && sub.state == Waiting && !Overdue(sub, now)
    ensures var e := WakeSubtask(d, sub.id, sub.version, System("trigger"), now).0;
      && e.subtasks == d.subtasks[sub.id := Roused(sub)] && e.board == d.board && e.missions == d.missions
      && e.eventSeq == d.eventSeq + 1
  {
    WakeGoesReady();
    hide Apply;
  }

  lemma RouseOneMore(base: map<string, Subtask>, woken: set<string>, id: string)
    requires id in base && id !in woken
    ensures RousedAll(base, woken + {id}) == RousedAll(base, woken)[id := Roused(base[id])]
    ensures |woken + {id}| == |woken| + 1
  {}

  lemma FiredNext(db: DB, subs: seq<Subtask>, i: nat, scope: Option<(string, string)>, now: int, mean: Meaning)
    requires i < |subs| && forall j, l :: 0 <= j < l < |subs| ==> subs[j].id != subs[l].id
    ensures var fired := FiredAmong(db, subs[..i], scope, now, mean);
      && subs[i].id !in fired
      && FiredAmong(db, subs[..i + 1], scope, now, mean)
         == fired + (if InScope(subs[i], scope) && Fires(db, subs[i], now, mean) then {subs[i].id} else {})
  {
    hide Fires, InScope;
    assert subs[..i + 1] == subs[..i] + [subs[i]];
    forall id
      ensures id in FiredAmong(db, subs[..i + 1], scope, now, mean) <==>
        id in FiredAmong(db, subs[..i], scope, now, mean)
        || (InScope(subs[i], scope) && Fires(db, subs[i], now, mean) && id == subs[i].id)
    {
      if id in FiredAmong(db, subs[..i], scope, now, mean) {
        var j :| 0 <= j < i && InScope(subs[..i][j], scope) && Fires(db, subs[..i][j], now, mean) && subs[..i][j].id == id;
        assert subs[..i + 1][j] == subs[j];
      }
      assert subs[..i + 1][i] == subs[i];
    }
  }

  lemma FiredInAll(db: DB, subs: seq<Subtask>, scope: Option<(string, string)>, now: int, mean: Meaning)
    requires ConditionListing(subs, db.subtasks)
    ensures FiredAmong(db, subs, scope, now, mean) == Fired(db, scope, now, mean)
  {
    hide Holds, RefsChanged, Overdue;
    forall id | id in Fired(db, scope, now, mean) ensures id in FiredAmong(db, subs, scope, now, mean) {
      var i :| 0 <= i < |subs| && subs[i].id == id;
      assert InScope(subs[i], scope) && Fires(db, subs[i], now, mean);
    }
  }
}
