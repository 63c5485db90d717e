/** Event wake-ups of internal/core/trigger.go: the paged scan of the log refines a plain search, and the
    watermark written at suspension loses no event. */
module Triggers {
  import opened Basics
  import opened StateMachine
  import opened Records
  import opened StoreSpec
  import opened EventLog
  import opened Invariants
  import opened StoreOps
  import opened StoreRuns

  // ---- where predicates ----

  /** The segments of a dotted path. */
  function Split(path: string): (segments: seq<string>)
    ensures |segments| >= 1
  {
    if path == "" then [""]
    else if path[0] == '.' then [""] + Split(path[1..])
    else
      var rest := Split(path[1..]);
      [[path[0]] + rest[0]] + rest[1..]
  }

  function Join(segments: seq<string>): string
    requires |segments| >= 1
  {
    if |segments| == 1 then segments[0] else segments[0] + "." + Join(segments[1..])
  }

  /** Splitting loses nothing, and no segment holds a dot. */
  lemma {:induction false} SplitJoin(path: string)
    ensures Join(Split(path)) == path
    ensures forall i :: 0 <= i < |Split(path)| ==> '.' !in Split(path)[i]
  {
    if path != "" {
      var rest := Split(path[1..]);
      SplitJoin(path[1..]);
      assert path == [path[0]] + path[1..];
      if path[0] != '.' {
        var all := [[path[0]] + rest[0]] + rest[1..];
        assert Split(path) == all && all[1..] == rest[1..];
        assert |rest| > 1 ==> Join(rest) == rest[0] + "." + Join(rest[1..]);
      } else {
        assert ([""] + rest)[1..] == rest;
      }
    }
  }

  lemma {:induction false} SplitWithoutDots(path: string)
    requires '.' !in path
    ensures Split(path) == [path]
  {
    if path != "" {
      SplitWithoutDots(path[1..]);
      assert path == [path[0]] + path[1..];
    }
  }

  /** Follows path segments through nested objects. */
  function Lookup(j: Json, path: seq<string>): Option<Json> {
    if path == [] then Some(j)
    else if j.JObj? && path[0] in j.fields then Lookup(j.fields[path[0]], path[1..])
    else None
  }

  /** Every path of `where` exists in the payload and holds exactly the wanted value. */
  ghost predicate Matches(payload: map<string, Json>, where: map<string, Json>) {
    forall path :: path in where ==> Lookup(JObj(payload), Split(path)) == Some(where[path])
  }

  method FollowPath(payload: map<string, Json>, path: seq<string>) returns (found: Option<Json>)
    ensures found == Lookup(JObj(payload), path)
  {
    var cur := JObj(payload);
    assert path[0..] == path;
    for i := 0 to |path|
      invariant Lookup(JObj(payload), path) == Lookup(cur, path[i..])
    {
      assert path[i..][0] == path[i] && path[i..][1..] == path[i + 1..];
      if !cur.JObj? || path[i] !in cur.fields {
        return None;
      }
      cur := cur.fields[path[i]];
    }
    found := Some(cur);
  }

  method MatchWhere(payload: map<string, Json>, where: map<string, Json>) returns (ok: bool)
    ensures ok <==> Matches(payload, where)
  {
    var todo := where.Keys;
    while todo != {}
      invariant todo <= where.Keys
      invariant forall path :: path in where && path !in todo ==> Lookup(JObj(payload), Split(path)) == Some(where[path])
    {
      var path :| path in todo;
      var found := FollowPath(payload, Split(path));
      if found != Some(where[path]) {
        return false;
      }
      todo := todo - {path};
    }
    ok := true;
  }

  /** The event is one the registration waits for. */
  ghost predicate Wanted(e: Event, mission: string, m: EventMatch) {
    e.mission == mission && e.number > m.afterSeq && e.typ in m.types && Matches(JsonOf(e.payload), m.where)
  }

  /** The specification of the scan: some event of the log is wanted. */
  ghost predicate Hit(events: seq<Event>, mission: string, m: EventMatch) {
    exists i :: 0 <= i < |events| && Wanted(events[i], mission, m)
  }

  // ---- paging ----

  ghost function EventsAfter(events: seq<Event>, mission: string, after: int): seq<Event> {
    if events == [] then []
    else
      var rest, e := EventsAfter(events[..|events| - 1], mission, after), events[|events| - 1];
      if e.mission == mission && e.number > after then rest + [e] else rest
  }

  /** The page holds the first `limit` events of the mission above the mark; a limit below one still
      yields one event. */
  method ListMissionEvents(events: seq<Event>, mission: string, after: int, limit: int) returns (page: seq<Event>)
    ensures var all := EventsAfter(events, mission, after);
      var size := if limit < 1 then 1 else limit;
      page == if |all| <= size then all else all[..size]
  {
    page := [];
    for i := 0 to |events|
      invariant page == EventsAfter(events[..i], mission, after)
      invariant |page| < (if limit < 1 then 1 else limit)
    {
      assert events[..i + 1][..i] == events[..i];
      if events[i].mission == mission && events[i].number > after {
        page := page + [events[i]];
        if |page| >= limit {
          AfterPrefix(events, i + 1, mission, after);
          return;
        }
      }
    }
    assert events[..|events|] == events;
  }

  lemma {:induction false} AfterPrefix(events: seq<Event>, i: nat, mission: string, after: int)
    requires i <= |events|
    ensures EventsAfter(events[..i], mission, after) <= EventsAfter(events, mission, after)
    decreases |events|
  {
    if i < |events| {
      var init := events[..|events| - 1];
      assert init[..i] == events[..i];
      AfterPrefix(init, i, mission, after);
    } else {
      assert events[..i] == events;
    }
  }

  /** The listing is exactly the mission's events above the mark, with increasing numbers. */
  lemma {:induction false} AfterContents(events: seq<Event>, mission: string, after: int)
    requires Numbered(events)
    ensures var all := EventsAfter(events, mission, after);
      && (forall e :: e in all <==> e in events && e.mission == mission && e.number > after)
      && (forall j, k :: 0 <= j < k < |all| ==> all[j].number < all[k].number)
      && (forall j :: 0 <= j < |all| ==> after < all[j].number <= |events|)
  {
    if events != [] {
      var init := events[..|events| - 1];
      AfterContents(init, mission, after);
      assert events == init + [events[|events| - 1]];
    }
  }

  /** Moving the mark to the last event of a page leaves exactly the rest. */
  lemma RestAfter(events: seq<Event>, mission: string, after: int, k: nat)
    requires Numbered(events) && 0 < k <= |EventsAfter(events, mission, after)|
    ensures var all := EventsAfter(events, mission, after);
      forall e :: e in EventsAfter(events, mission, all[k - 1].number) <==> e in all[k..]
  {
    var all := EventsAfter(events, mission, after);
    AfterContents(events, mission, after);
    AfterContents(events, mission, all[k - 1].number);
    forall e | e in all && e.number > all[k - 1].number ensures e in all[k..] {
      var j :| 0 <= j < |all| && all[j] == e;
      assert j >= k;
      assert all[k..][j - k] == e;
    }
    forall e | e in all[k..] ensures e in all && e.number > all[k - 1].number {
      var j :| 0 <= j < |all[k..]| && all[k..][j] == e;
      assert all[k + j] == e;
    }
  }

  method TypeWanted(typ: EventType, types: seq<EventType>) returns (yes: bool)
    ensures yes <==> typ in types
  {
    yes := false;
    for i := 0 to |types|
      invariant typ !in types[..i]
    {
      assert types[..i + 1] == types[..i] + [types[i]];
      if types[i] == typ {
        return true;
      }
    }
    assert types[..|types|] == types;
  }

  /** Is some event of the page of a wanted type with a matching payload? */
  method ScanPage(page: seq<Event>, m: EventMatch) returns (hit: bool)
    ensures hit <==> exists e :: e in page && e.typ in m.types && Matches(JsonOf(e.payload), m.where)
  {
    hit := false;
    for i := 0 to |page|
      invariant forall k :: 0 <= k < i ==> !(page[k].typ in m.types && Matches(JsonOf(page[k].payload), m.where))
    {
      var typed := TypeWanted(page[i].typ, m.types);
      if typed {
        var ok := MatchWhere(JsonOf(page[i].payload), m.where);
        if ok {
          assert page[i] in page;
          return true;
        }
      }
    }
  }

  ghost predicate Unseen(events: seq<Event>, mission: string, m: EventMatch, after: int) {
    exists e :: e in EventsAfter(events, mission, after) && e.typ in m.types && Matches(JsonOf(e.payload), m.where)
  }

  lemma UnseenIsHit(events: seq<Event>, mission: string, m: EventMatch)
    requires Numbered(events)
    ensures Unseen(events, mission, m, m.afterSeq) <==> Hit(events, mission, m)
  {
    AfterContents(events, mission, m.afterSeq);
    if Hit(events, mission, m) {
      var i :| 0 <= i < |events| && Wanted(events[i], mission, m);
      assert events[i] in EventsAfter(events, mission, m.afterSeq);
    }
    if Unseen(events, mission, m, m.afterSeq) {
      var e :| e in EventsAfter(events, mission, m.afterSeq) && e.typ in m.types && Matches(JsonOf(e.payload), m.where);
      var i :| 0 <= i < |events| && events[i] == e;
      assert Wanted(events[i], mission, m);
    }
  }

  /** The page loop finds exactly what a plain search of the whole log finds, for every page size, and
      terminates because every further page starts above the last event of the one before. */
  method PagedScan(events: seq<Event>, mission: string, m: EventMatch, size: int) returns (hit: bool)
    requires Numbered(events) && size >= 1
    ensures hit <==> Hit(events, mission, m)
  {
    var after := m.afterSeq;
    UnseenIsHit(events, mission, m);
    while true
      invariant after >= m.afterSeq
      invariant Unseen(events, mission, m, after) <==> Hit(events, mission, m)
      decreases |events| - after
    {
      var page := ListMissionEvents(events, mission, after, size);
      hit := ScanPage(page, m);
      AfterContents(events, mission, after);
      PageOfAll(events, mission, m, after, page, size);
      if hit || |page| < size {
        return;
      }
      NextPage(events, mission, m, after, page);
      after := page[|page| - 1].number;
    }
  }

  lemma PageOfAll(events: seq<Event>, mission: string, m: EventMatch, after: int, page: seq<Event>, size: int)
    requires size >= 1
    requires var all := EventsAfter(events, mission, after); page == if |all| <= size then all else all[..size]
    ensures (exists e :: e in page && e.typ in m.types && Matches(JsonOf(e.payload), m.where)) ==> Unseen(events, mission, m, after)
    ensures |page| < size ==> page == EventsAfter(events, mission, after)
    ensures page <= EventsAfter(events, mission, after)
  {}

  lemma NextPage(events: seq<Event>, mission: string, m: EventMatch, after: int, page: seq<Event>)
    requires Numbered(events) && page != [] && page <= EventsAfter(events, mission, after)
    requires forall e :: e in page ==> !(e.typ in m.types && Matches(JsonOf(e.payload), m.where))
    ensures Unseen(events, mission, m, page[|page| - 1].number) <==> Unseen(events, mission, m, after)
    ensures after < page[|page| - 1].number <= |events|
  {
    var all := EventsAfter(events, mission, after);
    AfterContents(events, mission, after);
    RestAfter(events, mission, after, |page|);
    assert all == page + all[|page|..];
  }

  // ---- the watermark ----

  /** The mark is the log's length when the suspending agent asked for it; the WAITING commit comes later.
      In every interleaving exactly the events logged after that moment lie above the mark, so nothing
      that happens after the commit is missed. */
  lemma WatermarkSeparates(calls: seq<Call>, more: seq<Call>, i: nat)
    requires Legal(calls + more) && Legal(calls) && i < |Run(calls + more).events|
    ensures |Run(calls).events| <= |Run(calls + more).events|
    ensures Run(calls + more).events[i].number > Run(calls).eventSeq <==> i >= |Run(calls).events|
  {
    RunKeeps(calls);
    RunKeeps(calls + more);
    RunGrows(calls, more);
    Sequences(Run(calls));
    LogTracks(Run(calls + more), "");
  }

  // ---- the wake sweep ----

  /** A WAITING registration on an event: what ListWaiting hands to the sweep. Registrations of other
      kinds are never looked at, even when they carry an event pattern. */
  predicate AwaitsEvent(sub: Subtask) { sub.state == Waiting && sub.wake.Some? && sub.wake.value.kind.WEvent? }

  ghost predicate WakeReady(db: DB, sub: Subtask, now: int) {
    && AwaitsEvent(sub) && sub.wake.value.event.Some? && !Overdue(sub, now)
    && Hit(db.events, sub.spec.mission, sub.wake.value.event.value)
  }

  ghost function WakeIfHit(db: DB, sub: Subtask, now: int): DB {
    if WakeReady(db, sub, now) then WakeSubtask(db, sub.id, sub.version, System("trigger"), now).0 else db
  }

  /** evalEventWakes: one scan per listed registration; each wake-up is itself logged before the next
      scan. */
  ghost function WakeAll(db: DB, subs: seq<Subtask>, now: int): DB {
    if subs == [] then db else WakeIfHit(WakeAll(db, subs[..|subs| - 1], now), subs[|subs| - 1], now)
  }

  ghost predicate WaitingRecord(db: DB, sub: Subtask) {
    sub.id in db.subtasks && db.subtasks[sub.id] == sub && sub.state == Waiting
  }

  lemma HitStays(a: seq<Event>, b: seq<Event>, mission: string, m: EventMatch)
    requires a <= b && Hit(a, mission, m)
    ensures Hit(b, mission, m)
  {
    var i :| 0 <= i < |a| && Wanted(a[i], mission, m);
    assert b[i] == a[i];
  }

  /** One registration's turn: woken when its event is there, and nobody else is touched. */
  lemma WakeTurn(db: DB, sub: Subtask, now: int)
    requires Inv(db) && WaitingRecord(db, sub)
    ensures var d := WakeIfHit(db, sub, now);
      && Sound(db, d)
      && (forall id :: id in db.subtasks && id != sub.id ==> id in d.subtasks && d.subtasks[id] == db.subtasks[id])
      && sub.id in d.subtasks
      && d.subtasks[sub.id] == (if WakeReady(db, sub, now) then Moving(sub, Ready).(wake := None) else sub)
  {
    hide Inv, Grows, Hit;
    if WakeReady(db, sub, now) {
      WakeSubtaskKeeps(db, sub.id, sub.version, System("trigger"), now);
      WakeGoesReady();
      hide Apply;
    } else {
      Unchanged(db);
    }
  }

  lemma WakeGoesReady()
    ensures Apply(Waiting, EvWoken) == Some(Ready)
  {}

  /** The listed registrations have had their turn: those that were ready are READY, a listed one has moved
      only on a wanted event, and nobody else has moved. */
  ghost predicate TurnsTaken(db: DB, d: DB, subs: seq<Subtask>, now: int) {
    && Sound(db, d)
    && (forall id :: id in db.subtasks && (forall i :: 0 <= i < |subs| ==> subs[i].id != id) ==>
          id in d.subtasks && d.subtasks[id] == db.subtasks[id])
    && (forall i :: 0 <= i < |subs| ==> TurnTaken(db, d, subs[i], now))
  }

  ghost predicate TurnTaken(db: DB, d: DB, sub: Subtask, now: int) {
    && sub.id in d.subtasks
    && (d.subtasks[sub.id] == Moving(sub, Ready).(wake := None) || d.subtasks[sub.id] == sub)
    && (WakeReady(db, sub, now) ==> d.subtasks[sub.id] == Moving(sub, Ready).(wake := None))
    && (d.subtasks[sub.id] != sub ==> WakeReady(d, sub, now))
  }

  lemma OneMoreTurn(db: DB, mid: DB, init: seq<Subtask>, last: Subtask, now: int)
    requires TurnsTaken(db, mid, init, now) && WaitingRecord(db, last)
    requires forall i :: 0 <= i < |init| ==> init[i].id != last.id && init[i].id in db.subtasks
    ensures TurnsTaken(db, WakeIfHit(mid, last, now), init + [last], now)
  {
    hide Inv, Grows, Sound, WakeIfHit, WakeReady;
    var d := WakeIfHit(mid, last, now);
    SoundLog(db, mid);
    GrownIds(db, mid);
    assert WaitingRecord(mid, last);
    WakeTurn(mid, last, now);
    SoundThen(db, mid, d);
    ReadyStays(db, mid, last, now);
    ReadyStays(mid, d, last, now);
    var subs := init + [last];
    assert subs[|init|] == last;
    assert forall i :: 0 <= i < |init| ==> subs[i] == init[i];
    forall i | 0 <= i < |subs| ensures TurnTaken(db, d, subs[i], now) {
      if i < |init| {
        assert TurnTaken(db, mid, init[i], now);
        ReadyStays(mid, d, init[i], now);
      }
    }
    forall id | id in db.subtasks && forall i :: 0 <= i < |subs| ==> subs[i].id != id
      ensures id in d.subtasks && d.subtasks[id] == db.subtasks[id]
    {
      assert forall i :: 0 <= i < |init| ==> init[i].id != id;
    }
  }

  lemma GrownIds(db: DB, d: DB)
    requires Sound(db, d)
    ensures db.subtasks.Keys <= d.subtasks.Keys
  {
    hide Inv;
  }

  /** No wake-up is lost: after the sweep every listed registration that had a wanted event in the log
      when the sweep began, and was not overdue, is READY. */
  lemma {:induction false} NoLostWakeup(db: DB, subs: seq<Subtask>, now: int)
    requires Inv(db) && forall i :: 0 <= i < |subs| ==> WaitingRecord(db, subs[i])
    requires forall i, j :: 0 <= i < j < |subs| ==> subs[i].id != subs[j].id
    ensures TurnsTaken(db, WakeAll(db, subs, now), subs, now)
  {
    hide Inv, Grows, WakeIfHit, WakeReady, Sound, TurnsTaken;
    if subs == [] {
      NoTurns(db, now);
    } else {
      var init, last := subs[..|subs| - 1], subs[|subs| - 1];
      NoLostWakeup(db, init, now);
      OneMoreTurn(db, WakeAll(db, init, now), init, last, now);
      assert subs == init + [last];
    }
  }

  lemma NoTurns(db: DB, now: int)
    requires Inv(db)
    ensures TurnsTaken(db, db, [], now)
  {
    hide Inv;
    Unchanged(db);
  }

  lemma ReadyStays(db: DB, d: DB, sub: Subtask, now: int)
    requires Sound(db, d)
    ensures WakeReady(db, sub, now) ==> WakeReady(d, sub, now)
  {
    hide Inv, Hit, Overdue;
    if WakeReady(db, sub, now) {
      HitStays(db.events, d.events, sub.spec.mission, sub.wake.value.event.value);
    }
  }

  lemma SoundLog(db: DB, d: DB)
    requires Sound(db, d)
    ensures Inv(d) && db.events <= d.events
  {}

  /** The reason for a wake-up, told by the registration and the log: an event of the subtask's own mission,
      logged after the mark, of a listed type, whose payload holds every wanted value. */
  ghost predicate HasReason(events: seq<Event>, sub: Subtask) {
    sub.wake.Some? && sub.wake.value.event.Some? &&
    var m := sub.wake.value.event.value;
    exists i :: 0 <= i < |events|
      && events[i].mission == sub.spec.mission && m.afterSeq < i + 1 && (exists j :: 0 <= j < |m.types| && m.types[j] == events[i].typ)
      && forall path :: path in m.where ==> Lookup(JObj(JsonOf(events[i].payload)), Split(path)) == Some(m.where[path])
  }

  /** A listed registration whose deadline has not passed is READY after the sweep if it had a reason before, and
      stays as it is if it has none even after. */
  lemma WakesForReasons(db: DB, subs: seq<Subtask>, now: int, i: nat)
    requires Inv(db) && (forall k :: 0 <= k < |subs| ==> WaitingRecord(db, subs[k])) && i < |subs| && AwaitsEvent(subs[i])
    requires forall k, l :: 0 <= k < l < |subs| ==> subs[k].id != subs[l].id
    ensures var d, sub := WakeAll(db, subs, now), subs[i];
      && sub.id in d.subtasks
      && (HasReason(db.events, sub) && !(sub.wake.value.deadline.Some? && sub.wake.value.deadline.value <= now) ==>
            d.subtasks[sub.id].state == Ready && d.subtasks[sub.id].wake.None?)
      && (!HasReason(d.events, sub) ==> d.subtasks[sub.id] == sub)
  {
    hide Inv, Grows, WakeAll, Hit, HasReason, TurnsTaken;
    NoLostWakeup(db, subs, now);
    var d, sub := WakeAll(db, subs, now), subs[i];
    TurnOf(db, d, subs, now, i);
    hide Sound;
    if sub.wake.value.event.Some? {
      ReasonIsHit(db, sub);
      ReasonIsHit(d, sub);
    } else {
      NoPatternNoReason(d.events, sub);
      NoPatternNoReason(db.events, sub);
    }
  }

  lemma TurnOf(db: DB, d: DB, subs: seq<Subtask>, now: int, i: nat)
    requires TurnsTaken(db, d, subs, now) && i < |subs|
    ensures TurnTaken(db, d, subs[i], now) && Inv(d)
  {
    hide TurnTaken, Inv, Grows;
  }

  lemma NoPatternNoReason(events: seq<Event>, sub: Subtask)
    requires sub.wake.Some? && sub.wake.value.event.None?
    ensures !HasReason(events, sub)
  {}

  lemma ReasonIsHit(db: DB, sub: Subtask)
    requires Inv(db) && sub.wake.Some? && sub.wake.value.event.Some?
    ensures HasReason(db.events, sub) <==> Hit(db.events, sub.spec.mission, sub.wake.value.event.value)
  {
    LogTracks(db, "");
    hide Inv;
    var m := sub.wake.value.event.value;
    forall i | 0 <= i < |db.events|
      ensures Wanted(db.events[i], sub.spec.mission, m) <==>
        && db.events[i].mission == sub.spec.mission && m.afterSeq < i + 1
        && (exists j :: 0 <= j < |m.types| && m.types[j] == db.events[i].typ)
        && forall path :: path in m.where ==> Lookup(JObj(JsonOf(db.events[i].payload)), Split(path)) == Some(m.where[path])
    {
      assert db.events[i].number == i + 1;
    }
  }
}
