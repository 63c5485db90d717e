/** Event sourcing: the log alone determines the state and version of every subtask. */
module EventLog {
  import opened Basics
  import opened StateMachine
  import opened Records
  import opened StoreSpec

  /** What the log says about one id so far. */
  datatype Track = Absent | At(state: State, version: int) | Broken

  ghost function Advance(t: Track, e: Event, id: string): Track {
    if e.aggregate != id || !e.typ.Lifecycle() then t
    else match t
      case Absent => if e.typ.EvCreated? then At(Pending, 0) else Broken
      case At(s, v) => if Edge(s, e.typ).Some? then At(Edge(s, e.typ).value, v + 1) else Broken
      case Broken => Broken
  }

  ghost function Replay(events: seq<Event>, id: string): Track {
    if events == [] then Absent
    else Advance(Replay(events[..|events| - 1], id), events[|events| - 1], id)
  }

  ghost function TrackOf(subtasks: map<string, Subtask>, id: string): Track {
    if id in subtasks then At(subtasks[id].state, subtasks[id].version) else Absent
  }

  ghost predicate Numbered(events: seq<Event>) {
    forall i :: 0 <= i < |events| ==> events[i].number == i + 1
  }

  ghost predicate EventInv(subtasks: map<string, Subtask>, events: seq<Event>, n: int) {
    && n == |events|
    && Numbered(events)
    && forall id :: Replay(events, id) == TrackOf(subtasks, id)
  }

  lemma ReplayLog(events: seq<Event>, e: Event, id: string)
    ensures Replay(events + [e], id) == Advance(Replay(events, id), e, id)
  {
    assert (events + [e])[..|events|] == events;
  }

  lemma LogKeepsEvents(db: DB, aggregate: string, mission: string, typ: EventType, payload: Payload,
                       actor: Actor, now: int)
    requires EventInv(db.subtasks, db.events, db.eventSeq)
    requires !typ.Lifecycle()
    ensures var d := Log(db, aggregate, mission, typ, payload, actor, now);
            EventInv(d.subtasks, d.events, d.eventSeq)
  {
    var e := Event(db.eventSeq + 1, aggregate, mission, typ, payload, actor, now);
    forall id ensures Replay(db.events + [e], id) == TrackOf(db.subtasks, id) {
      ReplayLog(db.events, e, id);
    }
  }

  lemma MoveKeepsEvents(db: DB, sub: Subtask, ev: EventType, extra: Json0, actor: Actor, now: int)
    requires EventInv(db.subtasks, db.events, db.eventSeq)
    requires sub.id in db.subtasks && sub.version == db.subtasks[sub.id].version + 1
    requires ev.Lifecycle() && Edge(db.subtasks[sub.id].state, ev) == Some(sub.state)
    ensures var d := Move(db, sub, ev, extra, actor, now);
            EventInv(d.subtasks, d.events, d.eventSeq)
  {
    var d := Move(db, sub, ev, extra, actor, now);
    var e := d.events[|db.events|];
    forall id ensures Replay(db.events + [e], id) == TrackOf(d.subtasks, id) {
      ReplayLog(db.events, e, id);
      assert Replay(db.events, id) == TrackOf(db.subtasks, id);
    }
  }

  lemma AddKeepsEvents(db: DB, sub: Subtask, extra: Json0, actor: Actor, now: int)
    requires EventInv(db.subtasks, db.events, db.eventSeq)
    requires sub.id !in db.subtasks && sub.state == Pending && sub.version == 0
    ensures var d := AddSubtask(db, sub, extra, actor, now);
            EventInv(d.subtasks, d.events, d.eventSeq)
  {
    var d := AddSubtask(db, sub, extra, actor, now);
    var e := d.events[|db.events|];
    forall id ensures Replay(db.events + [e], id) == TrackOf(d.subtasks, id) {
      ReplayLog(db.events, e, id);
      assert Replay(db.events, id) == TrackOf(db.subtasks, id);
    }
  }

  // ---- what the invariant means in the source's words ----

  /** The life-cycle event types logged for one subtask, oldest first. */
  ghost function History(events: seq<Event>, id: string): seq<EventType> {
    if events == [] then []
    else
      var rest, e := History(events[..|events| - 1], id), events[|events| - 1];
      if e.aggregate == id && e.typ.Lifecycle() then rest + [e.typ] else rest
  }

  /** Folds event types through the table and the wake time-out edge. */
  ghost function FoldEdges(from: State, evs: seq<EventType>): Option<State> {
    if evs == [] then Some(from)
    else
      var before := FoldEdges(from, evs[..|evs| - 1]);
      if before.None? then None else Edge(before.value, evs[|evs| - 1])
  }

  /** A live track is one creation followed by a legal path, and its version counts that path. */
  lemma {:induction false} ReplayMeaning(events: seq<Event>, id: string)
    ensures Replay(events, id) == Absent <==> History(events, id) == []
    ensures Replay(events, id).At? ==>
      && History(events, id) != [] && History(events, id)[0] == EvCreated
      && FoldEdges(Pending, History(events, id)[1..]) == Some(Replay(events, id).state)
      && Replay(events, id).version == |History(events, id)| - 1
  {
    if events != [] {
      var before, e := events[..|events| - 1], events[|events| - 1];
      ReplayMeaning(before, id);
      if e.aggregate == id && e.typ.Lifecycle() && Replay(before, id).At? {
        var h := History(before, id);
        assert (h + [e.typ])[1..] == h[1..] + [e.typ];
        assert (h[1..] + [e.typ])[..|h[1..]|] == h[1..];
      }
    }
  }

  /** Replaying a longer log continues the track: a subtask that left PENDING never returns, finished
      work stays finished, and versions only grow. */
  lemma {:induction false} ReplayMonotone(events: seq<Event>, more: seq<Event>, id: string)
    requires Replay(events, id).At?
    ensures Replay(events + more, id) != Absent
    ensures Replay(events + more, id).At? ==>
      var a, b := Replay(events, id), Replay(events + more, id);
      && a.version <= b.version
      && (a.version == b.version ==> a == b)
      && (b.state == Pending ==> a.state == Pending)
      && (a.state == Succeeded || a.state == Cancelled ==> a == b)
  {
    if more == [] {
      assert events + more == events;
    } else {
      var init := more[..|more| - 1];
      assert (events + more)[..|events + more| - 1] == events + init;
      assert (events + more)[|events + more| - 1] == more[|more| - 1];
      ReplayMonotone(events, init, id);
    }
  }
}
