/** Event payloads as documents: what a subscriber sees after encoding and decoding, and how that differs
    from the deep comparison that internal/core/trigger.go, matchWhere, makes with the values as logged. */
module JsonValues {
  import opened Basics
  import opened StateMachine
  import opened Records
  import opened StoreSpec
  import opened Invariants
  import opened StoreOps
  import opened Triggers

  /** The value after a round trip through its encoding: numbers become floating-point, slices lists. */
  function Decoded(j: Json): Json {
    match j
    case JInt(n) => JNum(n as real)
    case JStrings(strings) => JList(seq(|strings|, i requires 0 <= i < |strings| => JStr(strings[i])))
    case JList(items) => JList(seq(|items|, i requires 0 <= i < |items| => Decoded(items[i])))
    case JObj(fields) => JObj(map k | k in fields :: Decoded(fields[k]))
    case _ => j
  }

  predicate Whole(x: real) { x.Floor as real == x }

  predicate AllStrings(items: seq<Json>) { forall i :: 0 <= i < |items| ==> items[i].JStr? }

  /** The value the store would log natively for a decoded document: integers for whole numbers, string
      slices for lists of strings. */
  function Native(j: Json): Json {
    match j
    case JNum(x) => if Whole(x) then JInt(x.Floor) else j
    case JList(items) =>
      if AllStrings(items) then JStrings(seq(|items|, i requires 0 <= i < |items| => items[i].s))
      else JList(seq(|items|, i requires 0 <= i < |items| => Native(items[i])))
    case JObj(fields) => JObj(map k | k in fields :: Native(fields[k]))
    case _ => j
  }

  /** No whole number and no list of strings anywhere: nothing that could have been logged differently. */
  predicate Plain(j: Json) {
    match j
    case JNum(x) => !Whole(x)
    case JList(items) => !AllStrings(items) && forall i :: 0 <= i < |items| ==> Plain(items[i])
    case JObj(fields) => forall k :: k in fields ==> Plain(fields[k])
    case JInt(_) => false
    case JStrings(_) => false
    case _ => true
  }

  lemma StringsAreNotPlain(strings: seq<string>)
    ensures !Plain(Decoded(JStrings(strings)))
  {
    assert AllStrings(Decoded(JStrings(strings)).items);
  }

  /** A plain document is the decoding of itself alone. */
  lemma {:induction false} PlainIsFixed(v: Json, w: Json)
    requires Plain(w) && Decoded(v) == w
    ensures v == w
    decreases v
  {
    match v
    case JList(items) =>
      forall i | 0 <= i < |items| ensures items[i] == w.items[i] {
        PlainIsFixed(items[i], w.items[i]);
      }
    case JObj(fields) =>
      forall k | k in fields ensures k in w.fields && fields[k] == w.fields[k] {
        PlainIsFixed(fields[k], w.fields[k]);
      }
      assert fields.Keys == w.fields.Keys;
    case JStrings(strings) => StringsAreNotPlain(strings);
    case _ =>
  }

  /** Every other decoded document has a native form that decodes to it and differs from it. */
  lemma {:induction false} NativeDecodes(w: Json)
    requires Decoded(w) == w
    ensures Decoded(Native(w)) == w && (Native(w) == w <==> Plain(w))
    decreases w
  {
    match w
    case JNum(x) =>
    case JList(items) =>
      DecodedItems(items);
      forall i | 0 <= i < |items|
        ensures Decoded(Native(items[i])) == items[i] && (Native(items[i]) == items[i] <==> Plain(items[i]))
      {
        NativeDecodes(items[i]);
      }
      NativeList(items);
    case JObj(fields) =>
      forall k | k in fields
        ensures Decoded(Native(fields[k])) == fields[k] && (Native(fields[k]) == fields[k] <==> Plain(fields[k]))
      {
        assert Decoded(w).fields[k] == Decoded(fields[k]);
        NativeDecodes(fields[k]);
      }
      NativeObject(fields);
    case _ =>
  }

  lemma NativeObject(fields: map<string, Json>)
    requires forall k :: k in fields ==>
      Decoded(Native(fields[k])) == fields[k] && (Native(fields[k]) == fields[k] <==> Plain(fields[k]))
    ensures Decoded(Native(JObj(fields))) == JObj(fields)
    ensures Native(JObj(fields)) == JObj(fields) <==> Plain(JObj(fields))
  {
    var n := map k | k in fields :: Native(fields[k]);
    assert Native(JObj(fields)) == JObj(n);
    assert (map k | k in n :: Decoded(n[k])) == fields;
    assert n == fields <==> forall k :: k in fields ==> n[k] == fields[k];
  }

  lemma DecodedItems(items: seq<Json>)
    requires Decoded(JList(items)) == JList(items)
    ensures forall i :: 0 <= i < |items| ==> Decoded(items[i]) == items[i]
  {
    forall i | 0 <= i < |items| ensures Decoded(items[i]) == items[i] {
      assert Decoded(JList(items)).items[i] == Decoded(items[i]);
    }
  }

  lemma NativeList(items: seq<Json>)
    requires forall i :: 0 <= i < |items| ==>
      Decoded(Native(items[i])) == items[i] && (Native(items[i]) == items[i] <==> Plain(items[i]))
    ensures Decoded(Native(JList(items))) == JList(items)
    ensures Native(JList(items)) == JList(items) <==> Plain(JList(items))
  {
    if AllStrings(items) {
      var strings := seq(|items|, i requires 0 <= i < |items| => items[i].s);
      assert Native(JList(items)) == JStrings(strings);
      assert seq(|strings|, i requires 0 <= i < |strings| => JStr(strings[i])) == items;
    } else {
      var n := seq(|items|, i requires 0 <= i < |items| => Native(items[i]));
      assert Native(JList(items)) == JList(n);
      assert seq(|n|, i requires 0 <= i < |n| => Decoded(n[i])) == items;
      assert n == items <==> forall i :: 0 <= i < |items| ==> n[i] == items[i];
    }
  }

  lemma {:induction false} LookupDecoded(j: Json, path: seq<string>)
    ensures Lookup(Decoded(j), path)
         == match Lookup(j, path) case Some(v) => Some(Decoded(v)) case None => None
  {
    if path != [] && j.JObj? && path[0] in j.fields {
      assert Decoded(j).fields[path[0]] == Decoded(j.fields[path[0]]);
      LookupDecoded(j.fields[path[0]], path[1..]);
    }
  }

  lemma {:induction false} LookupNative(j: Json, path: seq<string>)
    ensures Lookup(Native(j), path)
         == match Lookup(j, path) case Some(v) => Some(Native(v)) case None => None
  {
    if path != [] && j.JObj? && path[0] in j.fields {
      assert Native(j).fields[path[0]] == Native(j.fields[path[0]]);
      LookupNative(j.fields[path[0]], path[1..]);
    }
  }

  /** Decoding is a projection. */
  lemma {:induction false} DecodedTwice(j: Json)
    ensures Decoded(Decoded(j)) == Decoded(j)
    decreases j
  {
    match j
    case JList(items) =>
      forall i | 0 <= i < |items| ensures Decoded(Decoded(items[i])) == Decoded(items[i]) {
        DecodedTwice(items[i]);
      }
    case JObj(fields) =>
      forall k | k in fields ensures Decoded(Decoded(fields[k])) == Decoded(fields[k]) {
        DecodedTwice(fields[k]);
      }
    case _ =>
  }

  // ---- matching by value ----

  /** Every path of `where` holds, in the document a subscriber sees, the wanted value. */
  ghost predicate MatchesByValue(payload: map<string, Json>, where: map<string, Json>) {
    forall path :: path in where ==> Lookup(Decoded(JObj(payload)), Split(path)) == Some(where[path])
  }

  /** What a registration holds: it has been decoded from its stored form. */
  ghost predicate FromDocument(where: map<string, Json>) {
    forall path :: path in where ==> Decoded(where[path]) == where[path]
  }

  /** Some path of `where` meets a value that was logged natively. */
  ghost predicate MeetsNative(payload: map<string, Json>, where: map<string, Json>) {
    exists path :: path in where && MeetsNativeAt(payload, path)
  }

  ghost predicate MeetsNativeAt(payload: map<string, Json>, path: string) {
    var found := Lookup(JObj(payload), Split(path));
    found.Some? && Decoded(found.value) != found.value
  }

  ghost predicate AllPlain(where: map<string, Json>) { forall path :: path in where ==> Plain(where[path]) }

  /** The deep comparison accepts what equals by value and meets no native value. */
  lemma DeepIsByValueWithoutNative(payload: map<string, Json>, where: map<string, Json>)
    requires FromDocument(where)
    ensures Matches(payload, where) <==> MatchesByValue(payload, where) && !MeetsNative(payload, where)
  {
    hide Decoded, Split;
    forall path | path in where
      ensures Lookup(Decoded(JObj(payload)), Split(path))
           == match Lookup(JObj(payload), Split(path)) case Some(v) => Some(Decoded(v)) case None => None
    {
      LookupDecoded(JObj(payload), Split(path));
    }
    if Matches(payload, where) {
      forall path | path in where ensures !MeetsNativeAt(payload, path) {
        assert Lookup(JObj(payload), Split(path)) == Some(where[path]);
      }
    }
    if MatchesByValue(payload, where) && !MeetsNative(payload, where) {
      forall path | path in where ensures Lookup(JObj(payload), Split(path)) == Some(where[path]) {
        assert !MeetsNativeAt(payload, path);
      }
    }
  }

  /** So on one payload the comparisons differ exactly when the payload matches by value and some path
      compares with a native value. */
  lemma DeepDiffersExactly(payload: map<string, Json>, where: map<string, Json>)
    requires FromDocument(where)
    ensures (Matches(payload, where) <==> MatchesByValue(payload, where))
       <==> !(MatchesByValue(payload, where) && MeetsNative(payload, where))
  {
    DeepIsByValueWithoutNative(payload, where);
  }

  /** The condition a caller can check before registering: with no whole number and no list of strings in
      `where`, the comparisons agree on every payload. */
  lemma PlainAgrees(payload: map<string, Json>, where: map<string, Json>)
    requires FromDocument(where) && AllPlain(where)
    ensures Matches(payload, where) <==> MatchesByValue(payload, where)
  {
    hide Decoded, Split, Plain;
    DeepIsByValueWithoutNative(payload, where);
    if MatchesByValue(payload, where) {
      forall path | path in where ensures !MeetsNativeAt(payload, path) {
        LookupDecoded(JObj(payload), Split(path));
        var found := Lookup(JObj(payload), Split(path));
        if found.Some? {
          PlainIsFixed(found.value, where[path]);
        }
      }
    }
  }

  // ---- patterns that some payload matches by value ----

  /** Wherever one path continues another, the value wanted at the shorter path holds, at the rest, the value
      wanted at the longer one. */
  ghost predicate Coherent(where: map<string, Json>) {
    forall p, q :: p in where && q in where && Split(p) <= Split(q) ==>
      Lookup(where[p], Split(q)[|Split(p)|..]) == Some(where[q])
  }

  type Entries = map<seq<string>, Json>

  /** The same on split paths, none of them empty or longer than n. */
  ghost predicate CoherentEntries(entries: Entries, n: nat) {
    && (forall p :: p in entries ==> 0 < |p| <= n)
    && forall p, q :: p in entries && q in entries && p <= q ==> Lookup(entries[p], q[|p|..]) == Some(entries[q])
  }

  /** The entries below a first segment. */
  ghost function Below(entries: Entries, head: string): Entries {
    assert forall p :: p in entries && |p| > 1 && p[0] == head ==> [head] + p[1..] == p;
    map rest | rest in (set p | p in entries && |p| > 1 && p[0] == head :: p[1..]) :: entries[[head] + rest]
  }

  /** A document with every entry at its path. */
  ghost function Built(entries: Entries, n: nat): map<string, Json>
    decreases n
  {
    map head | head in (set p | p in entries && p != [] :: p[0]) ::
      if [head] in entries then entries[[head]]
      else if n == 0 then JNull else JObj(Built(Below(entries, head), n - 1))
  }

  lemma {:induction false} LookupPath(j: Json, p: seq<string>, q: seq<string>)
    ensures Lookup(j, p + q) == match Lookup(j, p) case Some(v) => Lookup(v, q) case None => None
  {
    if p == [] {
      assert p + q == q;
    } else if j.JObj? && p[0] in j.fields {
      assert (p + q)[1..] == p[1..] + q;
      LookupPath(j.fields[p[0]], p[1..], q);
    }
  }

  lemma BelowAt(entries: Entries, p: seq<string>)
    requires p in entries && |p| > 1
    ensures p[1..] in Below(entries, p[0]) && Below(entries, p[0])[p[1..]] == entries[p]
  {
    assert p == [p[0]] + p[1..];
  }

  lemma BelowIs(entries: Entries, head: string, r: seq<string>)
    requires r in Below(entries, head)
    ensures [head] + r in entries && r != [] && Below(entries, head)[r] == entries[[head] + r]
  {
    var p :| p in entries && |p| > 1 && p[0] == head && p[1..] == r;
    assert p == [head] + r;
  }

  lemma BelowCoherent(entries: Entries, head: string, n: nat)
    requires CoherentEntries(entries, n) && n > 0
    ensures CoherentEntries(Below(entries, head), n - 1)
  {
    var sub := Below(entries, head);
    forall r | r in sub ensures 0 < |r| <= n - 1 {
      BelowIs(entries, head, r);
    }
    forall r, t | r in sub && t in sub && r <= t ensures Lookup(sub[r], t[|r|..]) == Some(sub[t]) {
      BelowIs(entries, head, r);
      BelowIs(entries, head, t);
      var p, q := [head] + r, [head] + t;
      assert p <= q && q[|p|..] == t[|r|..];
    }
  }

  lemma {:induction false} BuiltHolds(entries: Entries, n: nat, p: seq<string>)
    requires CoherentEntries(entries, n) && p in entries
    ensures Lookup(JObj(Built(entries, n)), p) == Some(entries[p])
    decreases n
  {
    hide Built, Below, CoherentEntries, Lookup;
    CoherentAt(entries, n, p);
    BuiltAt(entries, n, p);
    if [p[0]] !in entries {
      OneSegment(p);
      BelowAt(entries, p);
      BelowCoherent(entries, p[0], n);
      BuiltHolds(Below(entries, p[0]), n - 1, p[1..]);
    }
  }

  lemma CoherentAt(entries: Entries, n: nat, p: seq<string>)
    requires CoherentEntries(entries, n) && p in entries
    ensures 0 < |p| <= n
    ensures [p[0]] in entries ==> Lookup(entries[[p[0]]], p[1..]) == Some(entries[p])
  {
    assert [p[0]] <= p && p[|[p[0]]|..] == p[1..];
  }

  lemma OneSegment(p: seq<string>)
    requires p != []
    ensures p == [p[0]] || |p| > 1
  {}

  lemma BuiltAt(entries: Entries, n: nat, p: seq<string>)
    requires p in entries && 0 < |p| <= n
    ensures Lookup(JObj(Built(entries, n)), p)
         == Lookup(if [p[0]] in entries then entries[[p[0]]] else JObj(Built(Below(entries, p[0]), n - 1)), p[1..])
  {
    assert p[0] in Built(entries, n);
  }

  lemma {:induction false} BuiltDecoded(entries: Entries, n: nat)
    requires forall p :: p in entries ==> Decoded(entries[p]) == entries[p]
    ensures Decoded(JObj(Built(entries, n))) == JObj(Built(entries, n))
    decreases n
  {
    var doc := Built(entries, n);
    forall head | head in doc ensures Decoded(doc[head]) == doc[head] {
      if [head] !in entries && n > 0 {
        forall r | r in Below(entries, head) ensures Decoded(Below(entries, head)[r]) == Below(entries, head)[r] {
          BelowIs(entries, head, r);
        }
        BuiltDecoded(Below(entries, head), n - 1);
      }
    }
    assert (map k | k in doc :: Decoded(doc[k])) == doc;
  }

  /** A pattern can be matched by value if and only if it is coherent. */
  lemma MatchableExactly(where: map<string, Json>)
    requires FromDocument(where)
    ensures (exists payload :: MatchesByValue(payload, where)) <==> Coherent(where)
  {
    if payload :| MatchesByValue(payload, where) {
      MatchedIsCoherent(payload, where);
    }
    if Coherent(where) {
      CoherentIsMatched(where);
    }
  }

  lemma MatchedIsCoherent(payload: map<string, Json>, where: map<string, Json>)
    requires MatchesByValue(payload, where)
    ensures Coherent(where)
  {
    hide Decoded, Split;
    var doc := Decoded(JObj(payload));
    forall p, q | p in where && q in where && Split(p) <= Split(q)
      ensures Lookup(where[p], Split(q)[|Split(p)|..]) == Some(where[q])
    {
      var rest := Split(q)[|Split(p)|..];
      assert Split(q) == Split(p) + rest;
      LookupPath(doc, Split(p), rest);
    }
  }

  /** The pattern by split paths; splitting loses nothing, so no two paths meet. */
  ghost function SplitEntries(where: map<string, Json>): Entries {
    assert forall p :: p in where ==> Join(Split(p)) == p by {
      forall p ensures Join(Split(p)) == p { SplitJoin(p); }
    }
    map segments | segments in (set p | p in where :: Split(p)) :: where[Join(segments)]
  }

  lemma SplitAt(where: map<string, Json>, p: string)
    requires p in where
    ensures Split(p) in SplitEntries(where) && SplitEntries(where)[Split(p)] == where[p]
  {
    SplitJoin(p);
  }

  ghost function Longest(where: map<string, Json>): (n: nat)
    ensures forall p :: p in where ==> |Split(p)| <= n
  {
    if where == map[] then 0
    else
      var p :| p in where;
      SmallerMap(where, p);
      var n := Longest(where - {p});
      if n < |Split(p)| then |Split(p)| else n
  }

  lemma CoherentIsMatched(where: map<string, Json>)
    requires FromDocument(where) && Coherent(where)
    ensures exists payload :: MatchesByValue(payload, where)
  {
    hide Decoded, Split, Join;
    var entries, n := SplitEntries(where), Longest(where);
    SplitCoherent(where, n);
    forall r | r in entries ensures Decoded(entries[r]) == entries[r] {
      var p :| p in where && Split(p) == r;
      SplitAt(where, p);
    }
    var payload := Built(entries, n);
    BuiltDecoded(entries, n);
    hide SplitEntries, Built;
    forall p | p in where ensures Lookup(Decoded(JObj(payload)), Split(p)) == Some(where[p]) {
      SplitAt(where, p);
      BuiltHolds(entries, n, Split(p));
    }
    assert MatchesByValue(payload, where);
  }

  lemma SplitCoherent(where: map<string, Json>, n: nat)
    requires Coherent(where) && forall p :: p in where ==> |Split(p)| <= n
    ensures CoherentEntries(SplitEntries(where), n)
  {
    hide Split, Join, Lookup;
    var entries := SplitEntries(where);
    forall r | r in entries ensures 0 < |r| <= n {
      var p :| p in where && Split(p) == r;
    }
    forall r, t | r in entries && t in entries && r <= t ensures Lookup(entries[r], t[|r|..]) == Some(entries[t]) {
      var p :| p in where && Split(p) == r;
      var q :| q in where && Split(q) == t;
      SplitAt(where, p);
      SplitAt(where, q);
    }
  }

  // ---- when the comparisons agree ----

  /** The condition is exact: the comparisons agree on all payloads if and only if the pattern is plain, or two
      of its paths contradict each other so that no payload can match it even by value. */
  lemma AgreeExactly(where: map<string, Json>)
    requires FromDocument(where)
    ensures (forall payload :: Matches(payload, where) <==> MatchesByValue(payload, where))
       <==> AllPlain(where) || !Coherent(where)
  {
    hide Coherent, Plain;
    MatchableExactly(where);
    if AllPlain(where) {
      forall payload ensures Matches(payload, where) <==> MatchesByValue(payload, where) {
        PlainAgrees(payload, where);
      }
    } else {
      var path :| path in where && !Plain(where[path]);
      forall payload | MatchesByValue(payload, where)
        ensures exists other :: MatchesByValue(other, where) && !Matches(other, where)
      {
        NativePayloadDiffers(payload, where, path);
      }
      forall payload ensures Matches(payload, where) ==> MatchesByValue(payload, where) {
        DeepIsByValueWithoutNative(payload, where);
      }
    }
  }

  /** The same document, logged natively, matches by value but not by the deep comparison. */
  lemma NativePayloadDiffers(payload: map<string, Json>, where: map<string, Json>, path: string)
    requires FromDocument(where) && MatchesByValue(payload, where) && path in where && !Plain(where[path])
    ensures exists other :: MatchesByValue(other, where) && !Matches(other, where)
  {
    var doc := Decoded(JObj(payload));
    var native := Native(doc);
    var other := native.fields;
    DecodedTwice(JObj(payload));
    NativeDecodes(doc);
    assert JObj(other) == native && Decoded(native) == doc;
    LookupNative(doc, Split(path));
    NativeDecodes(where[path]);
    hide Decoded, Native, Plain, Split;
    assert Lookup(JObj(other), Split(path)) == Some(Native(where[path]));
    assert MatchesByValue(other, where) && !Matches(other, where);
  }

  // ---- what this means for wake-ups ----

  ghost predicate WantedByValue(e: Event, mission: string, m: EventMatch) {
    e.mission == mission && e.number > m.afterSeq && e.typ in m.types && MatchesByValue(JsonOf(e.payload), m.where)
  }

  ghost predicate HitByValue(events: seq<Event>, mission: string, m: EventMatch) {
    exists i :: 0 <= i < |events| && WantedByValue(events[i], mission, m)
  }

  /** For a plain pattern the scan finds exactly the events that match by value. */
  lemma PlainHits(events: seq<Event>, mission: string, m: EventMatch)
    requires FromDocument(m.where) && AllPlain(m.where)
    ensures Hit(events, mission, m) <==> HitByValue(events, mission, m)
  {
    forall i | 0 <= i < |events| ensures Wanted(events[i], mission, m) <==> WantedByValue(events[i], mission, m) {
      PlainAgrees(JsonOf(events[i].payload), m.where);
    }
    hide Wanted, WantedByValue;
    if Hit(events, mission, m) {
      var i :| 0 <= i < |events| && Wanted(events[i], mission, m);
      assert WantedByValue(events[i], mission, m);
    }
    if HitByValue(events, mission, m) {
      var i :| 0 <= i < |events| && WantedByValue(events[i], mission, m);
      assert Wanted(events[i], mission, m);
    }
  }

  /** No wake-up is lost on a plain pattern: a listed registration with an event in the log that matches by
      value, and not overdue, is READY after the sweep. */
  lemma NoLostWakeupByValue(db: DB, subs: seq<Subtask>, now: int, i: nat)
    requires Inv(db) && i < |subs|
    requires forall j :: 0 <= j < |subs| ==> WaitingRecord(db, subs[j]) && AwaitsEvent(subs[j])
    requires forall j, l :: 0 <= j < l < |subs| ==> subs[j].id != subs[l].id
    requires AwaitsEvent(subs[i]) && subs[i].wake.value.event.Some? && !Overdue(subs[i], now)
    requires FromDocument(subs[i].wake.value.event.value.where) && AllPlain(subs[i].wake.value.event.value.where)
    requires HitByValue(db.events, subs[i].spec.mission, subs[i].wake.value.event.value)
    ensures subs[i].id in WakeAll(db, subs, now).subtasks
    ensures WakeAll(db, subs, now).subtasks[subs[i].id].state == Ready
  {
    PlainHits(db.events, subs[i].spec.mission, subs[i].wake.value.event.value);
    NoLostWakeup(db, subs, now);
    hide Inv, Sound, Hit, HitByValue, WakeAll, FromDocument, AllPlain, Overdue;
    assert TurnTaken(db, WakeAll(db, subs, now), subs[i], now);
  }

  /** A whole number does lose wake-ups: the event of an accepted start carries the attempt as an integer,
      so a pattern on {"attempt": x} never wants it, though by value it matches for the right x. */
  lemma AttemptIsNeverWanted(db: DB, id: string, token: int, expected: int, actor: Actor, now: int, x: real,
                             m: EventMatch)
    requires Inv(db) && StartSubtask(db, id, token, expected, actor, now).1.Ok?
    requires m.where == map["attempt" := JNum(x)] && EvStarted in m.types && m.afterSeq <= db.eventSeq
    ensures var d := StartSubtask(db, id, token, expected, actor, now).0;
      var e := d.events[|db.events|];
      && |d.events| == |db.events| + 1 && e.typ == EvStarted
      && !Wanted(e, db.subtasks[id].spec.mission, m)
      && (x == db.subtasks[id].attempt as real ==> WantedByValue(e, db.subtasks[id].spec.mission, m))
  {
    StartLogs(db, id, token, expected, actor, now);
    Sequences(db);
    hide Inv, StartSubtask, Matches, MatchesByValue, JsonOf;
    AttemptPattern(Moved(Running, map["attempt" := JInt(db.subtasks[id].attempt)]), db.subtasks[id].attempt, x);
  }

  lemma StartLogs(db: DB, id: string, token: int, expected: int, actor: Actor, now: int)
    requires Inv(db) && StartSubtask(db, id, token, expected, actor, now).1.Ok?
    ensures id in db.subtasks
    ensures StartSubtask(db, id, token, expected, actor, now).0.events
         == db.events + [Event(db.eventSeq + 1, id, db.subtasks[id].spec.mission, EvStarted,
                               Moved(Running, map["attempt" := JInt(db.subtasks[id].attempt)]), actor, now)]
  {
    SubtaskFacts(db, id);
    StartedEvent();
    hide Inv, Apply, FencingOk;
  }

  lemma AttemptPattern(p: Payload, n: int, x: real)
    requires p == Moved(Running, map["attempt" := JInt(n)])
    ensures !Matches(JsonOf(p), map["attempt" := JNum(x)])
    ensures x == n as real ==> MatchesByValue(JsonOf(p), map["attempt" := JNum(x)])
  {
    AttemptValue(JsonOf(p), n, x);
  }

  lemma AttemptValue(payload: map<string, Json>, n: int, x: real)
    requires "attempt" in payload && payload["attempt"] == JInt(n)
    ensures !Matches(payload, map["attempt" := JNum(x)])
    ensures x == n as real ==> MatchesByValue(payload, map["attempt" := JNum(x)])
  {
    var where := map["attempt" := JNum(x)];
    SplitWithoutDots("attempt");
    assert ["attempt"][1..] == [];
    assert Lookup(JObj(payload), ["attempt"]) == Some(JInt(n));
    LookupDecoded(JObj(payload), ["attempt"]);
    hide Split, Lookup;
    assert where["attempt"] == JNum(x) && Decoded(JInt(n)) == JNum(n as real);
  }

  lemma StartedEvent()
    ensures forall from :: Apply(from, EvStarted).Some? ==> Apply(from, EvStarted) == Some(Running)
  {}

  /** Registrations of another kind are never listed, so they stay WAITING through the sweep even when they
      carry an event pattern whose event has happened. */
  lemma OtherKindsStay(db: DB, subs: seq<Subtask>, now: int, id: string)
    requires Inv(db) && id in db.subtasks && !AwaitsEvent(db.subtasks[id])
    requires forall j :: 0 <= j < |subs| ==> WaitingRecord(db, subs[j]) && AwaitsEvent(subs[j])
    requires forall j, l :: 0 <= j < l < |subs| ==> subs[j].id != subs[l].id
    ensures id in WakeAll(db, subs, now).subtasks && WakeAll(db, subs, now).subtasks[id] == db.subtasks[id]
  {
    NoLostWakeup(db, subs, now);
    hide Inv, WakeAll, Sound;
    assert forall j :: 0 <= j < |subs| ==> subs[j].id != id;
  }
}
