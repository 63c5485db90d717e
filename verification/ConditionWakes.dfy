/** The incremental evaluation of wake conditions after a board write (internal/core/trigger.go and
    service.go, BoardPut): skipping the registrations that the filter rejects loses nothing. */
module ConditionWakes {
  import opened Basics
  import opened Records
  import opened StoreSpec
  import opened Invariants
  import opened Conditions
  import opened Footprints

  /** Stored bytes as a JSON document, if they are one. */
  type Parse = string -> Option<Value>

  /** jsonToCEL: bytes that are no JSON document appear as a string. */
  function Decoded(raw: string, parse: Parse): Value {
    match parse(raw)
    case Some(v) => v
    case None => VStr(raw)
  }

  // ---- the board as nested maps ----

  datatype Entry = Entry(ns: string, key: string, value: Value)

  /** No two entries disagree about a key. */
  ghost predicate Functional(entries: set<Entry>) {
    forall e, f :: e in entries && f in entries && e.ns == f.ns && e.key == f.key ==> e == f
  }

  ghost predicate Has(entries: set<Entry>, ns: string, key: string) {
    exists e :: e in entries && e.ns == ns && e.key == key
  }

  ghost function ValueAt(entries: set<Entry>, ns: string, key: string): Value
    requires Has(entries, ns, key)
  {
    var e :| e in entries && e.ns == ns && e.key == key;
    e.value
  }

  ghost function Slice(entries: set<Entry>, ns: string): map<string, Value> {
    map key | key in (set e | e in entries && e.ns == ns :: e.key) :: ValueAt(entries, ns, key)
  }

  /** Namespace, then key. */
  ghost function Nested(entries: set<Entry>): Slices {
    map ns | ns in (set e | e in entries :: e.ns) :: Slice(entries, ns)
  }

  lemma NestedAt(entries: set<Entry>, e: Entry)
    requires Functional(entries) && e in entries
    ensures Get(Nested(entries), e.ns, e.key) == Some(e.value)
  {
    assert Has(entries, e.ns, e.key);
  }

  lemma NestedHas(entries: set<Entry>, ns: string, key: string)
    ensures Get(Nested(entries), ns, key).Some? <==> Has(entries, ns, key)
    ensures ns in Nested(entries) <==> exists e :: e in entries && e.ns == ns
  {}

  /** Nested maps without empty slices are equal when they have the same keys and values. */
  lemma SameSlices(a: Slices, b: Slices)
    requires a.Keys == b.Keys && forall ns, key :: Get(a, ns, key) == Get(b, ns, key)
    ensures a == b
  {
    forall ns | ns in a ensures a[ns] == b[ns] {
      forall key ensures key in a[ns] <==> key in b[ns] {
        assert Get(a, ns, key) == Get(b, ns, key);
      }
      forall key | key in a[ns] ensures a[ns][key] == b[ns][key] {
        assert Get(a, ns, key) == Get(b, ns, key);
      }
    }
  }

  lemma NestedGet(entries: set<Entry>, ns: string, key: string)
    requires Functional(entries)
    ensures match Get(Nested(entries), ns, key)
      case None => !Has(entries, ns, key)
      case Some(v) => Entry(ns, key, v) in entries
  {
    NestedHas(entries, ns, key);
    if Has(entries, ns, key) {
      var e :| e in entries && e.ns == ns && e.key == key;
      NestedAt(entries, e);
    }
  }

  /** Adding an entry is writing it. */
  lemma NestedPut(entries: set<Entry>, e: Entry)
    requires Functional(entries + {e})
    ensures Nested(entries + {e}) == Written(Nested(entries), e.ns, e.key, e.value)
  {
    var more, w := entries + {e}, Written(Nested(entries), e.ns, e.key, e.value);
    PutKeys(entries, e);
    forall ns, key ensures Get(Nested(more), ns, key) == Get(w, ns, key) {
      PutGet(entries, e, ns, key);
    }
    hide Nested, Written, Functional;
    SameSlices(Nested(more), w);
  }

  lemma PutKeys(entries: set<Entry>, e: Entry)
    ensures Nested(entries + {e}).Keys == Written(Nested(entries), e.ns, e.key, e.value).Keys
  {
    forall ns ensures ns in Nested(entries + {e}) <==> ns in Nested(entries) || ns == e.ns {
      NestedHas(entries, ns, "");
      NestedHas(entries + {e}, ns, "");
      assert e in entries + {e};
    }
  }

  lemma PutGet(entries: set<Entry>, e: Entry, ns: string, key: string)
    requires Functional(entries + {e})
    ensures Get(Nested(entries + {e}), ns, key) == Get(Written(Nested(entries), e.ns, e.key, e.value), ns, key)
  {
    hide Nested;
    NestedGet(entries, ns, key);
    NestedGet(entries + {e}, ns, key);
    if ns == e.ns && key == e.key {
      NestedAt(entries + {e}, e);
    }
  }

  ghost function Chosen(entries: set<Entry>, nss: set<string>): set<Entry> {
    set e | e in entries && (Cut(e.ns) in nss || "" in nss)
  }

  /** Selecting namespaces is selecting entries. */
  lemma NestedRestricted(entries: set<Entry>, nss: set<string>)
    requires Functional(entries)
    ensures Nested(Chosen(entries, nss)) == Restricted(Nested(entries), nss)
  {
    var chosen := Chosen(entries, nss);
    var a, b := Nested(chosen), Restricted(Nested(entries), nss);
    forall ns ensures ns in a <==> ns in b {
      NestedHas(entries, ns, "");
      NestedHas(chosen, ns, "");
    }
    forall ns | ns in a ensures a[ns] == b[ns] {
      SameSlice(chosen, entries, ns);
    }
    assert a == b;
  }

  lemma SameSlice(a: set<Entry>, b: set<Entry>, ns: string)
    requires Functional(a) && Functional(b)
    requires forall e: Entry :: e.ns == ns ==> (e in a <==> e in b)
    ensures Slice(a, ns) == Slice(b, ns)
  {
    assert (set e | e in a && e.ns == ns :: e.key) == (set e | e in b && e.ns == ns :: e.key);
    forall key | key in Slice(a, ns) ensures Slice(a, ns)[key] == Slice(b, ns)[key] {
      var e :| e in a && e.ns == ns && e.key == key;
      assert e in b && Has(a, ns, key) && Has(b, ns, key);
    }
  }

  ghost function EntryOf(e: BoardEntry, parse: Parse): Entry { Entry(e.ns, e.key, Decoded(e.value, parse)) }

  ghost function EntriesOf(board: map<string, BoardEntry>, m: string, parse: Parse): set<Entry> {
    set k | k in board && board[k].mission == m :: EntryOf(board[k], parse)
  }

  lemma EntriesFunctional(board: map<string, BoardEntry>, m: string, parse: Parse)
    requires BoardInv(board)
    ensures Functional(EntriesOf(board, m, parse))
  {
    hide BoardKey;
  }

  /** The mission's board as an expression sees it. */
  ghost function SlicesOf(board: map<string, BoardEntry>, m: string, parse: Parse): Slices {
    Nested(EntriesOf(board, m, parse))
  }

  /** evalCondition: missing entries and evaluation errors make a condition false, and so do bytes that are
      no JSON document when they are compared. */
  ghost predicate Holds(board: map<string, BoardEntry>, m: string, c: Condition, parse: Parse, env: Env, ops: Ops) {
    match c.formula
    case Some(Compiled(expr)) => Eval(expr, env[BOARD := BoardValue(SlicesOf(board, m, parse))], ops) == VBool(true)
    case Some(Uncompilable) => false
    case None =>
      var k := m + "/" + c.board;
      k in board && (c.op == "exists" || (c.value.Some? && parse(board[k].value) == c.value))
  }

  /** conditionRefsChanged: may a write to this "namespace/key" matter? */
  ghost predicate RefsChanged(c: Condition, changed: string) {
    match c.formula
    case Some(Compiled(expr)) => FootprintOf(expr).wild || References(Names(FootprintOf(expr)), changed)
    case Some(Uncompilable) => true
    case None => c.board == changed
  }

  method ConditionRefsChanged(c: Condition, changed: string) returns (yes: bool)
    ensures yes <==> RefsChanged(c, changed)
  {
    match c.formula
    case None => yes := c.board == changed;
    case Some(Uncompilable) => yes := true;
    case Some(Compiled(expr)) =>
      var refs, wildcard := ExtractBoardRefs(expr);
      yes := ReferencesBoard(refs, wildcard, changed);
  }

  /** Exactly one form, a compiling expression, or a "namespace/key" with a known operation. */
  predicate ValidCondition(c: Condition) {
    var structured := c.board != "" || c.op != "";
    match c.formula
    case Some(f) => !structured && f.Compiled?
    case None =>
      && structured && Cut(c.board) != "" && |Cut(c.board)| + 1 < |c.board|
      && (c.op == "exists" || (c.op == "equals" && c.value.Some?))
  }

  // ---- the two forms of a condition ----

  function Exists(ns: string, key: string): Condition { Condition(NameOf(ns, key), "exists", None, None) }

  function Equals(ns: string, key: string, v: Value): Condition { Condition(NameOf(ns, key), "equals", Some(v), None) }

  function Picks(ns: string, key: string, test: bool): Expr { Select(Select(Ident(BOARD), ns, false), key, test) }

  /** Neither mission ids nor namespaces hold a slash. */
  ghost predicate PlainNames(board: map<string, BoardEntry>) {
    PlainMissions(board) && forall k :: k in board ==> NoSlash(board[k].ns)
  }

  /** "exists" means what has(board.ns.key) means. "equals" implies that board.ns.key has the value, and means it
      when the stored bytes are a JSON document; other bytes equal nothing although they are visible as a string. */
  lemma FormsAgree(board: map<string, BoardEntry>, m: string, ns: string, key: string, v: Value, parse: Parse, env: Env,
                   ops: Ops)
    requires BoardInv(board) && PlainNames(board) && NoSlash(m) && NoSlash(ns)
    ensures Holds(board, m, Exists(ns, key), parse, env, ops)
       <==> Holds(board, m, Condition("", "", None, Some(Compiled(Picks(ns, key, true)))), parse, env, ops)
    ensures var k := BoardKey(m, ns, key);
      var picked := Eval(Picks(ns, key, false), env[BOARD := BoardValue(SlicesOf(board, m, parse))], ops);
      && (Holds(board, m, Equals(ns, key, v), parse, env, ops) ==> picked == v)
      && (k in board && parse(board[k].value).Some? ==> (Holds(board, m, Equals(ns, key, v), parse, env, ops) <==> picked == v))
  {
    KeyIsName(m, ns, key);
    StoredIsVisible(board, m, ns, key, parse);
    PickValue(ns, key, env, ops, SlicesOf(board, m, parse));
    ProbeValue(ns, key, env, ops, SlicesOf(board, m, parse));
    hide SlicesOf, BoardInv, PlainNames, NoSlash, BoardKey, Eval;
  }

  lemma PickValue(ns: string, key: string, env: Env, ops: Ops, b: Slices)
    ensures Eval(Picks(ns, key, false), env[BOARD := BoardValue(b)], ops)
         == match Get(b, ns, key) case Some(v) => v case None => VErr
  {
    var inner := Select(Ident(BOARD), ns, false);
    assert Eval(inner, env[BOARD := BoardValue(b)], ops) == if ns in b then VMap(b[ns]) else VErr;
  }

  lemma StoredIsVisible(board: map<string, BoardEntry>, m: string, ns: string, key: string, parse: Parse)
    requires BoardInv(board) && PlainNames(board) && NoSlash(m) && NoSlash(ns)
    ensures var k := BoardKey(m, ns, key);
      Get(SlicesOf(board, m, parse), ns, key) == if k in board then Some(Decoded(board[k].value, parse)) else None
  {
    var k := BoardKey(m, ns, key);
    EntriesFunctional(board, m, parse);
    NestedGet(EntriesOf(board, m, parse), ns, key);
    if k in board {
      SameEntry(board, m, ns, key);
      hide BoardInv, Nested, BoardKey, Functional;
      NestedAt(EntriesOf(board, m, parse), EntryOf(board[k], parse));
    } else {
      hide Nested, Functional;
      NoEntry(board, m, ns, key, parse);
    }
  }

  lemma SameEntry(board: map<string, BoardEntry>, m: string, ns: string, key: string)
    requires BoardInv(board) && PlainNames(board) && NoSlash(m) && NoSlash(ns) && BoardKey(m, ns, key) in board
    ensures var e := board[BoardKey(m, ns, key)]; e.mission == m && e.ns == ns && e.key == key
  {
    var e := board[BoardKey(m, ns, key)];
    KeyIsName(m, ns, key);
    KeyIsName(e.mission, e.ns, e.key);
    SameMission(m, e.mission, NameOf(ns, key), NameOf(e.ns, e.key));
    SameMission(ns, e.ns, key, e.key);
  }

  lemma NoEntry(board: map<string, BoardEntry>, m: string, ns: string, key: string, parse: Parse)
    requires BoardInv(board) && BoardKey(m, ns, key) !in board
    ensures !Has(EntriesOf(board, m, parse), ns, key)
  {
    hide BoardKey;
  }

  // ---- what a write changes ----

  /** Mission ids hold no slash, so a board key shows whose entry it is. */
  ghost predicate PlainMissions(board: map<string, BoardEntry>) { forall k :: k in board ==> NoSlash(board[k].mission) }

  lemma SameMission(m: string, n: string, rest: string, other: string)
    requires NoSlash(m) && NoSlash(n) && m + "/" + rest == n + "/" + other
    ensures m == n && rest == other
  {
    var k := m + "/" + rest;
    CutName(m, rest);
    CutName(n, other);
    assert k[|m| + 1..] == rest && k[|n| + 1..] == other;
  }

  /** The name under which a reference meets a write. */
  function NameOf(ns: string, key: string): string { ns + "/" + key }

  lemma KeyIsName(m: string, ns: string, key: string)
    ensures BoardKey(m, ns, key) == m + "/" + NameOf(ns, key)
  {
    assert BoardKey(m, ns, key) == m + "/" + (ns + "/" + key);
  }

  /** The board after a write to a name of a mission: the mission's entries under other names and all entries
      of other missions are what they were. */
  lemma WriteElsewhere(board: map<string, BoardEntry>, e: BoardEntry, m: string, parse: Parse, x: Entry)
    requires BoardInv(board) && PlainMissions(board) && NoSlash(m) && NoSlash(e.mission)
    requires m != e.mission || NameOf(x.ns, x.key) != NameOf(e.ns, e.key)
    ensures var after := board[BoardKey(e.mission, e.ns, e.key) := e];
      x in EntriesOf(after, m, parse) <==> x in EntriesOf(board, m, parse)
  {
    var k0 := BoardKey(e.mission, e.ns, e.key);
    var after := board[k0 := e];
    KeyIsName(e.mission, e.ns, e.key);
    KeyIsName(m, x.ns, x.key);
    if BoardKey(m, x.ns, x.key) == k0 {
      SameMission(m, e.mission, NameOf(x.ns, x.key), NameOf(e.ns, e.key));
    }
    BoardPutKeepsBoard(board, e);
    EntryKey(board, m, parse, x);
    EntryKey(after, m, parse, x);
  }

  /** An entry of a mission is stored under its own key. */
  lemma EntryKey(board: map<string, BoardEntry>, m: string, parse: Parse, x: Entry)
    requires BoardInv(board)
    ensures var k := BoardKey(m, x.ns, x.key);
      x in EntriesOf(board, m, parse) <==>
        k in board && board[k].mission == m && EntryOf(board[k], parse) == x
  {
    hide BoardKey;
    if x in EntriesOf(board, m, parse) {
      var k :| k in board && board[k].mission == m && EntryOf(board[k], parse) == x;
      assert k == BoardKey(m, x.ns, x.key);
    }
  }

  /** A namespace appears or disappears with the write. */
  ghost predicate Toggled(before: Slices, after: Slices, ns: string) { (ns in before) != (ns in after) }

  /** Boards before and after a write agree on a footprint that the write's name does not meet, up to probed
      namespaces that it toggles. */
  lemma WriteAgrees(board: map<string, BoardEntry>, e: BoardEntry, m: string, parse: Parse, f: Footprint)
    requires BoardInv(board) && PlainMissions(board) && NoSlash(m) && NoSlash(e.mission)
    requires m != e.mission || !References(Names(f), NameOf(e.ns, e.key))
    requires var after := board[BoardKey(e.mission, e.ns, e.key) := e];
      forall ns :: ns in f.probed ==> !Toggled(SlicesOf(board, m, parse), SlicesOf(after, m, parse), ns)
    ensures AgreeOn(SlicesOf(board, m, parse), SlicesOf(board[BoardKey(e.mission, e.ns, e.key) := e], m, parse), f)
  {
    var after := board[BoardKey(e.mission, e.ns, e.key) := e];
    var a, b := EntriesOf(board, m, parse), EntriesOf(after, m, parse);
    BoardPutKeepsBoard(board, e);
    EntriesFunctional(board, m, parse);
    EntriesFunctional(after, m, parse);
    hide EntriesOf, BoardKey, References, Names, Nested, NameOf, BoardInv, PlainMissions, NoSlash, Functional;
    forall r | r in f.refs
      ensures if r.Whole? then (r.ns in Nested(a) <==> r.ns in Nested(b)) && (r.ns in Nested(a) && r.ns in Nested(b) ==> Nested(a)[r.ns] == Nested(b)[r.ns])
              else Get(Nested(a), r.ns, r.key) == Get(Nested(b), r.ns, r.key)
    {
      if r.Whole? {
        forall x: Entry | x.ns == r.ns ensures x in a <==> x in b {
          if m == e.mission {
            WholeMisses(f, r, x.key, NameOf(e.ns, e.key));
          }
          WriteElsewhere(board, e, m, parse, x);
        }
        SameNamespace(a, b, r.ns);
      } else {
        forall x: Entry | x.ns == r.ns && x.key == r.key ensures x in a <==> x in b {
          if m == e.mission {
            OneMisses(f, r, NameOf(e.ns, e.key));
          }
          WriteElsewhere(board, e, m, parse, x);
        }
        SameKey(a, b, r.ns, r.key);
      }
    }
  }

  lemma SameNamespace(a: set<Entry>, b: set<Entry>, ns: string)
    requires Functional(a) && Functional(b)
    requires forall x: Entry :: x.ns == ns ==> (x in a <==> x in b)
    ensures ns in Nested(a) <==> ns in Nested(b)
    ensures ns in Nested(a) && ns in Nested(b) ==> Nested(a)[ns] == Nested(b)[ns]
  {
    NestedHas(a, ns, "");
    NestedHas(b, ns, "");
    SameSlice(a, b, ns);
  }

  lemma SameKey(a: set<Entry>, b: set<Entry>, ns: string, key: string)
    requires Functional(a) && Functional(b)
    requires forall x: Entry :: x.ns == ns && x.key == key ==> (x in a <==> x in b)
    ensures Get(Nested(a), ns, key) == Get(Nested(b), ns, key)
  {
    hide Nested;
    NestedGet(a, ns, key);
    NestedGet(b, ns, key);
    if Get(Nested(a), ns, key).Some? {
      var x := Entry(ns, key, Get(Nested(a), ns, key).value);
      assert x in a && x in b;
      NestedAt(b, x);
    }
  }

  lemma WholeMisses(f: Footprint, r: Ref, key: string, changed: string)
    requires r in f.refs && r.Whole? && !References(Names(f), changed)
    ensures NameOf(r.ns, key) != changed
  {
    hide References;
    assert RefName(r) in Names(f);
    if NameOf(r.ns, key) == changed {
      WholeReferences(Names(f), r.ns, key);
    }
  }

  lemma OneMisses(f: Footprint, r: Ref, changed: string)
    requires r in f.refs && r.One? && !References(Names(f), changed)
    ensures NameOf(r.ns, r.key) != changed
  {
    assert RefName(r) in Names(f);
  }

  /** The namespaces whose mere existence the condition can see. */
  ghost function Probed(c: Condition): set<string> {
    match c.formula
    case Some(Compiled(expr)) => FootprintOf(expr).probed
    case _ => {}
  }

  /** After a board write the service evaluates only the registrations of the same mission whose condition
      the filter lets through. All others hold after the write exactly when they held before, except an
      expression that probes with has() a namespace that the write makes appear or disappear; that one is
      left to the full sweep. */
  lemma SkippedConditionsAreUnchanged(db: DB, e: BoardEntry, expected: int, m: string, c: Condition, parse: Parse,
                                      env: Env, ops: Ops)
    requires BoardInv(db.board) && PlainMissions(db.board) && NoSlash(m) && NoSlash(e.mission)
    requires m != e.mission || !RefsChanged(c, NameOf(e.ns, e.key))
    requires var after := StoreSpec.BoardPut(db, e, expected).0.board;
      forall ns :: ns in Probed(c) ==> !Toggled(SlicesOf(db.board, m, parse), SlicesOf(after, m, parse), ns)
    ensures Holds(StoreSpec.BoardPut(db, e, expected).0.board, m, c, parse, env, ops) <==> Holds(db.board, m, c, parse, env, ops)
  {
    var r := StoreSpec.BoardPut(db, e, expected);
    if r.1.Ok? {
      var entry := r.1.value;
      match c.formula
      case None => StructuredUnchanged(entry, m, c);
      case Some(Uncompilable) =>
      case Some(Compiled(expr)) =>
        hide SlicesOf, Toggled, NameOf, References, Names;
        if m == e.mission {
          WriteAgrees(db.board, entry, m, parse, FootprintOf(expr));
          SameOnBoards(expr, env, ops, SlicesOf(db.board, m, parse), SlicesOf(r.0.board, m, parse));
        } else {
          OtherMission(db.board, entry, m, parse);
        }
    }
  }

  lemma SameOnBoards(e: Expr, env: Env, ops: Ops, a: Slices, b: Slices)
    requires !FootprintOf(e).wild && AgreeOn(a, b, FootprintOf(e))
    ensures Eval(e, env[BOARD := BoardValue(a)], ops) == Eval(e, env[BOARD := BoardValue(b)], ops)
  {
    hide FootprintOf, Eval, AgreeOn;
    EvalAgrees(e, env[BOARD := BoardValue(a)], env[BOARD := BoardValue(b)], ops, a, b);
  }

  lemma OtherMission(board: map<string, BoardEntry>, e: BoardEntry, m: string, parse: Parse)
    requires BoardInv(board) && PlainMissions(board) && NoSlash(m) && NoSlash(e.mission) && m != e.mission
    ensures SlicesOf(board[BoardKey(e.mission, e.ns, e.key) := e], m, parse) == SlicesOf(board, m, parse)
  {
    hide EntriesOf, BoardKey, BoardInv, PlainMissions, NoSlash, NameOf;
    var after := board[BoardKey(e.mission, e.ns, e.key) := e];
    forall x ensures x in EntriesOf(after, m, parse) <==> x in EntriesOf(board, m, parse) {
      WriteElsewhere(board, e, m, parse, x);
    }
    assert EntriesOf(after, m, parse) == EntriesOf(board, m, parse);
  }

  lemma StructuredUnchanged(e: BoardEntry, m: string, c: Condition)
    requires NoSlash(m) && NoSlash(e.mission)
    requires m != e.mission || c.board != NameOf(e.ns, e.key)
    ensures m + "/" + c.board != BoardKey(e.mission, e.ns, e.key)
  {
    KeyIsName(e.mission, e.ns, e.key);
    if m + "/" + c.board == BoardKey(e.mission, e.ns, e.key) {
      SameMission(m, e.mission, c.board, NameOf(e.ns, e.key));
    }
  }

  /** Among namespaces without slash a write toggles exactly its own, and only by creating it. (With a slash it
      may also overwrite an entry of another namespace under the same name, and empty that one.) */
  lemma ToggledExactly(board: map<string, BoardEntry>, e: BoardEntry, parse: Parse, ns: string)
    requires BoardInv(board) && PlainMissions(board) && NoSlash(e.mission) && NoSlash(e.ns) && NoSlash(ns)
    ensures Toggled(SlicesOf(board, e.mission, parse), SlicesOf(board[BoardKey(e.mission, e.ns, e.key) := e], e.mission, parse), ns)
       <==> ns == e.ns && ns !in SlicesOf(board, e.mission, parse)
  {
    var m := e.mission;
    var after := board[BoardKey(e.mission, e.ns, e.key) := e];
    var a, b := EntriesOf(board, m, parse), EntriesOf(after, m, parse);
    WrittenEntry(board, e, parse);
    hide EntriesOf, BoardKey, BoardInv, PlainMissions, NoSlash, Nested;
    NestedHas(a, ns, "");
    NestedHas(b, ns, "");
    if ns == e.ns {
      assert EntryOf(e, parse) in b;
    } else {
      forall x: Entry | x.ns == ns ensures x in a <==> x in b {
        DifferentNames(ns, e.ns, x.key, e.key);
        WriteElsewhere(board, e, m, parse, x);
      }
    }
  }

  lemma WrittenEntry(board: map<string, BoardEntry>, e: BoardEntry, parse: Parse)
    ensures EntryOf(e, parse) in EntriesOf(board[BoardKey(e.mission, e.ns, e.key) := e], e.mission, parse)
  {
    var k0 := BoardKey(e.mission, e.ns, e.key);
    var after := board[k0 := e];
    assert after[k0] == e;
  }

  lemma DifferentNames(ns: string, other: string, key: string, otherKey: string)
    requires NoSlash(ns) && NoSlash(other) && ns != other
    ensures NameOf(ns, key) != NameOf(other, otherKey)
  {
    CutName(ns, key);
    CutName(other, otherKey);
  }
}
