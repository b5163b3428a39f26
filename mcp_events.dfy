/**
 * The relational writes of `add_memories` (the ADD/DELETE change events the
 * memory client reports) and of `delete_all_memories`, on values.
 *
 * The session is created with `autoflush=False`, so the lookup
 * `db.query(Memory).filter(Memory.id == memory_id).first()` sees the rows
 * committed before the call (with the changes made to them since) but not the
 * rows `db.add`-ed earlier in the same call.  `Session` keeps the two apart.
 */
module McpEvents {
  import opened Common
  import opened MemoryModel

  /** One entry of `response['results']`: `id`, `event` and `memory`. */
  datatype ChangeEvent = ChangeEvent(id: string, event: string, memory: string)

  /** The event's id parses to `id`. */
  predicate Names(e: ChangeEvent, id: Uuid)
  {
    ParseUuid(e.id) == Some(id)
  }

  function IdsOf(rows: seq<Memory>): (r: seq<Uuid>)
    ensures |r| == |rows|
    ensures forall i :: 0 <= i < |rows| ==> r[i] == rows[i].id
  {
    seq(|rows|, i requires 0 <= i < |rows| => rows[i].id)
  }

  /** Some history entry moves memory `id` into `deleted`. */
  ghost predicate DeletionRecorded(history: seq<StatusHistory>, id: Uuid)
  {
    exists k :: 0 <= k < |history| && history[k].memoryId == id && history[k].newState == Deleted
  }

  /**
   * The relational invariant: ids are unique and canonical, and a deleted
   * row has a `deleted_at` and a history entry that moved it into `deleted`.
   */
  ghost predicate Consistent(rows: seq<Memory>, history: seq<StatusHistory>)
  {
    UniqueIds(rows) &&
    (forall i :: 0 <= i < |rows| ==> IsCanonicalUuid(rows[i].id)) &&
    (forall i :: 0 <= i < |rows| && rows[i].state == Deleted ==>
       rows[i].deletedAt.Some? && DeletionRecorded(history, rows[i].id))
  }

  lemma RecordedInLonger(h: seq<StatusHistory>, extra: seq<StatusHistory>, id: Uuid)
    requires DeletionRecorded(h, id)
    ensures DeletionRecorded(h + extra, id)
  {
    var k :| 0 <= k < |h| && h[k].memoryId == id && h[k].newState == Deleted;
    assert (h + extra)[k] == h[k];
  }

  /**
   * A new row: the caller's user and app, the event's content, `active`.
   * The column defaults of the model class are taken as: no metadata,
   * created and updated now.
   */
  function NewRow(id: Uuid, user: User, app: App, content: string, now: Time): Memory
  {
    Memory(id, user.id, app.id, content, None, Active, Some(now), Some(now), None)
  }

  /** ADD on an existing row: `active` and the new content; `deleted_at` is left as it was. */
  function Reactivated(m: Memory, content: string): Memory
  {
    m.(state := Active, content := content)
  }

  function SoftDeleted(m: Memory, now: Time): Memory
  {
    m.(state := Deleted, deletedAt := Some(now))
  }

  /**
   * The history entry of an ADD.  Its `old_state` is `deleted` even for a new
   * row: by the time it is computed `memory` names the row just created.
   */
  function AddEntry(id: Uuid, user: User): StatusHistory
  {
    StatusHistory(id, user.id, Some(Deleted), Active)
  }

  function DeleteEntry(id: Uuid, user: User): StatusHistory
  {
    StatusHistory(id, user.id, Some(Active), Deleted)
  }

  /** The pending state of one `add_memories` session. */
  datatype Session = Session(rows: seq<Memory>, inserted: seq<Memory>, history: seq<StatusHistory>)

  /** One change event; `None` is the `ValueError` of `uuid.UUID` on a malformed id. */
  function ApplyEvent(s: Session, e: ChangeEvent, user: User, app: App, now: Time): Option<Session>
  {
    var id := ParseUuid(e.id);
    if id.None? then None
    else
      var at := FindRow(s.rows, id.value);
      if e.event == "ADD" then
        if at.None? then
          Some(Session(s.rows, s.inserted + [NewRow(id.value, user, app, e.memory, now)], s.history + [AddEntry(id.value, user)]))
        else
          Some(Session(s.rows[at.value := Reactivated(s.rows[at.value], e.memory)], s.inserted, s.history + [AddEntry(id.value, user)]))
      else if e.event == "DELETE" && at.Some? then
        Some(Session(s.rows[at.value := SoftDeleted(s.rows[at.value], now)], s.inserted, s.history + [DeleteEntry(id.value, user)]))
      else
        Some(s)
  }

  function ApplyEvents(s: Session, events: seq<ChangeEvent>, user: User, app: App, now: Time): Option<Session>
    decreases |events|
  {
    if |events| == 0 then Some(s)
    else
      match ApplyEvent(s, events[0], user, app, now)
      case None => None
      case Some(s1) => ApplyEvents(s1, events[1..], user, app, now)
  }

  /** Two rows share an id: the commit fails on the primary key. */
  predicate HasDuplicateId(rows: seq<Memory>)
    decreases |rows|
  {
    |rows| > 0 && (HasId(rows[1..], rows[0].id) || HasDuplicateId(rows[1..]))
  }

  lemma {:induction false} DuplicateIdIsNotUnique(rows: seq<Memory>)
    ensures HasDuplicateId(rows) <==> !UniqueIds(rows)
    decreases |rows|
  {
    if |rows| > 0 {
      DuplicateIdIsNotUnique(rows[1..]);
      assert forall i :: 1 <= i < |rows| ==> rows[i] == rows[1..][i - 1];
      if !UniqueIds(rows) && !HasId(rows[1..], rows[0].id) {
        var i, j :| 0 <= i < j < |rows| && rows[i].id == rows[j].id;
        assert i > 0;
        assert rows[1..][i - 1].id == rows[1..][j - 1].id;
      }
    }
  }

  /** What one `add_memories` call commits (updated and new rows, new history), or `None` for an exception. */
  function AddEffect(rows: seq<Memory>, events: seq<ChangeEvent>, user: User, app: App, now: Time)
    : Option<(seq<Memory>, seq<StatusHistory>)>
  {
    match ApplyEvents(Session(rows, [], []), events, user, app, now)
    case None => None
    case Some(s) => if HasDuplicateId(s.inserted) then None else Some((s.rows + s.inserted, s.history))
  }

  /** The event-processing loop, on a copy of the rows; nothing is written unless it all succeeds. */
  method ApplyChanges(rows: seq<Memory>, events: seq<ChangeEvent>, user: User, app: App, now: Time)
    returns (r: Option<(seq<Memory>, seq<StatusHistory>)>)
    ensures r == AddEffect(rows, events, user, app, now)
  {
    var s := Session(rows, [], []);
    var i := 0;
    while i < |events|
      invariant 0 <= i <= |events|
      invariant ApplyEvents(Session(rows, [], []), events, user, app, now) == ApplyEvents(s, events[i..], user, app, now)
    {
      var e := events[i];
      assert events[i..][0] == e && events[i..][1..] == events[i + 1..];
      var id := ParseUuid(e.id);
      if id.None? {
        return None;
      }
      var at := FindRow(s.rows, id.value);
      if e.event == "ADD" {
        if at.None? {
          s := s.(inserted := s.inserted + [NewRow(id.value, user, app, e.memory, now)]);
        } else {
          s := s.(rows := s.rows[at.value := Reactivated(s.rows[at.value], e.memory)]);
        }
        s := s.(history := s.history + [AddEntry(id.value, user)]);
      } else if e.event == "DELETE" {
        if at.Some? {
          s := s.(rows := s.rows[at.value := SoftDeleted(s.rows[at.value], now)]);
          s := s.(history := s.history + [DeleteEntry(id.value, user)]);
        }
      }
      i := i + 1;
    }
    if HasDuplicateId(s.inserted) {
      return None;
    }
    r := Some((s.rows + s.inserted, s.history));
  }

  // ---------------------------------------------------------------------
  // A reference description, event by event and row by row
  // ---------------------------------------------------------------------

  /** What one event does to one pre-existing row. */
  function RowStep(m: Memory, e: ChangeEvent, now: Time): Memory
  {
    if !Names(e, m.id) then m
    else if e.event == "ADD" then Reactivated(m, e.memory)
    else if e.event == "DELETE" then SoftDeleted(m, now)
    else m
  }

  /** A pre-existing row after all events, applied in order. */
  function RowAfter(m: Memory, events: seq<ChangeEvent>, now: Time): Memory
    decreases |events|
  {
    if |events| == 0 then m else RowAfter(RowStep(m, events[0], now), events[1..], now)
  }

  predicate AllIdsParse(events: seq<ChangeEvent>)
  {
    forall k :: 0 <= k < |events| ==> ParseUuid(events[k].id).Some?
  }

  /** The rows an event inserts: an ADD whose id is not among the pre-existing `ids`. */
  function InsertOf(e: ChangeEvent, ids: seq<Uuid>, user: User, app: App, now: Time): seq<Memory>
  {
    match ParseUuid(e.id)
    case None => []
    case Some(id) => if e.event == "ADD" && id !in ids then [NewRow(id, user, app, e.memory, now)] else []
  }

  /** The history an event writes: one entry per ADD, one per DELETE of a pre-existing id. */
  function EntryOf(e: ChangeEvent, ids: seq<Uuid>, user: User): seq<StatusHistory>
  {
    match ParseUuid(e.id)
    case None => []
    case Some(id) =>
      if e.event == "ADD" then [AddEntry(id, user)]
      else if e.event == "DELETE" && id in ids then [DeleteEntry(id, user)]
      else []
  }

  function ExpectedInserts(events: seq<ChangeEvent>, ids: seq<Uuid>, user: User, app: App, now: Time): seq<Memory>
    decreases |events|
  {
    if |events| == 0 then [] else InsertOf(events[0], ids, user, app, now) + ExpectedInserts(events[1..], ids, user, app, now)
  }

  function ExpectedHistory(events: seq<ChangeEvent>, ids: seq<Uuid>, user: User): seq<StatusHistory>
    decreases |events|
  {
    if |events| == 0 then [] else EntryOf(events[0], ids, user) + ExpectedHistory(events[1..], ids, user)
  }

  function RowsAfter(rows: seq<Memory>, events: seq<ChangeEvent>, now: Time): (r: seq<Memory>)
    ensures |r| == |rows|
  {
    seq(|rows|, i requires 0 <= i < |rows| => RowAfter(rows[i], events, now))
  }

  lemma ApplyEventStep(s: Session, e: ChangeEvent, user: User, app: App, now: Time)
    requires UniqueIds(s.rows) && ParseUuid(e.id).Some?
    ensures ApplyEvent(s, e, user, app, now).Some?
    ensures var s1 := ApplyEvent(s, e, user, app, now).value;
      |s1.rows| == |s.rows| &&
      (forall i :: 0 <= i < |s.rows| ==> s1.rows[i] == RowStep(s.rows[i], e, now)) &&
      s1.inserted == s.inserted + InsertOf(e, IdsOf(s.rows), user, app, now) &&
      s1.history == s.history + EntryOf(e, IdsOf(s.rows), user)
  {
    var id := ParseUuid(e.id).value;
    var at := FindRow(s.rows, id);
    assert id in IdsOf(s.rows) <==> HasId(s.rows, id) by {
      if id in IdsOf(s.rows) {
        var j :| 0 <= j < |IdsOf(s.rows)| && IdsOf(s.rows)[j] == id;
        assert s.rows[j].id == id;
      }
      if HasId(s.rows, id) {
        var j :| 0 <= j < |s.rows| && s.rows[j].id == id;
        assert IdsOf(s.rows)[j] == id;
      }
    }
    var s1 := ApplyEvent(s, e, user, app, now).value;
    forall i | 0 <= i < |s.rows| ensures s1.rows[i] == RowStep(s.rows[i], e, now) {
      if at.Some? && i != at.value {
        assert s.rows[i].id != s.rows[at.value].id;
      }
    }
  }

  lemma RowsStepPreservesIds(rows: seq<Memory>, rows1: seq<Memory>, e: ChangeEvent, now: Time)
    requires |rows1| == |rows| && forall i :: 0 <= i < |rows| ==> rows1[i] == RowStep(rows[i], e, now)
    ensures IdsOf(rows1) == IdsOf(rows)
    ensures UniqueIds(rows) ==> UniqueIds(rows1)
  {
  }

  /**
   * The session fold agrees with the reference description: each
   * pre-existing row receives the events that name it, in order; the new
   * rows and the history entries are those the events call for, judged
   * against the ids known before the call.
   */
  lemma {:induction false} ApplyEventsCharacterized(s: Session, events: seq<ChangeEvent>, user: User, app: App, now: Time)
    requires UniqueIds(s.rows)
    ensures ApplyEvents(s, events, user, app, now) ==
      if AllIdsParse(events) then
        Some(Session(RowsAfter(s.rows, events, now),
                     s.inserted + ExpectedInserts(events, IdsOf(s.rows), user, app, now),
                     s.history + ExpectedHistory(events, IdsOf(s.rows), user)))
      else None
    decreases |events|
  {
    if |events| == 0 {
      assert RowsAfter(s.rows, events, now) == s.rows;
      assert s.inserted + [] == s.inserted && s.history + [] == s.history;
    } else {
      var e := events[0];
      var rest := events[1..];
      AllIdsParseCons(events);
      if ParseUuid(e.id).Some? {
        ApplyEventStep(s, e, user, app, now);
        var s1 := ApplyEvent(s, e, user, app, now).value;
        RowsStepPreservesIds(s.rows, s1.rows, e, now);
        ApplyEventsCharacterized(s1, rest, user, app, now);
        if AllIdsParse(rest) {
          RowsAfterCons(s.rows, s1.rows, events, now);
          ExpectedCons(s, s1, events, user, app, now);
        }
      }
    }
  }

  lemma AllIdsParseCons(events: seq<ChangeEvent>)
    requires |events| > 0
    ensures AllIdsParse(events) <==> ParseUuid(events[0].id).Some? && AllIdsParse(events[1..])
  {
    var rest := events[1..];
    if ParseUuid(events[0].id).Some? && AllIdsParse(rest) {
      forall k | 0 <= k < |events| ensures ParseUuid(events[k].id).Some? {
        if k > 0 { assert events[k] == rest[k - 1]; }
      }
    }
    if AllIdsParse(events) {
      forall k | 0 <= k < |rest| ensures ParseUuid(rest[k].id).Some? {
        assert rest[k] == events[k + 1];
      }
    }
  }

  lemma RowsAfterCons(rows: seq<Memory>, rows1: seq<Memory>, events: seq<ChangeEvent>, now: Time)
    requires |events| > 0
    requires |rows1| == |rows| && forall i :: 0 <= i < |rows| ==> rows1[i] == RowStep(rows[i], events[0], now)
    ensures RowsAfter(rows1, events[1..], now) == RowsAfter(rows, events, now)
  {
  }

  lemma ExpectedCons(s: Session, s1: Session, events: seq<ChangeEvent>, user: User, app: App, now: Time)
    requires |events| > 0 && IdsOf(s1.rows) == IdsOf(s.rows)
    requires s1.inserted == s.inserted + InsertOf(events[0], IdsOf(s.rows), user, app, now)
    requires s1.history == s.history + EntryOf(events[0], IdsOf(s.rows), user)
    ensures s1.inserted + ExpectedInserts(events[1..], IdsOf(s1.rows), user, app, now)
      == s.inserted + ExpectedInserts(events, IdsOf(s.rows), user, app, now)
    ensures s1.history + ExpectedHistory(events[1..], IdsOf(s1.rows), user)
      == s.history + ExpectedHistory(events, IdsOf(s.rows), user)
  {
    var ids := IdsOf(s.rows);
    var ins, later := InsertOf(events[0], ids, user, app, now), ExpectedInserts(events[1..], ids, user, app, now);
    assert ExpectedInserts(events, ids, user, app, now) == ins + later;
    Associative(s.inserted, ins, later);
    var entry, rest := EntryOf(events[0], ids, user), ExpectedHistory(events[1..], ids, user);
    assert ExpectedHistory(events, ids, user) == entry + rest;
    Associative(s.history, entry, rest);
  }

  lemma Associative<T>(a: seq<T>, b: seq<T>, c: seq<T>)
    ensures (a + b) + c == a + (b + c)
  {
  }

  /** The whole effect of one call, by the reference description. */
  lemma AddEffectCharacterized(rows: seq<Memory>, events: seq<ChangeEvent>, user: User, app: App, now: Time)
    requires UniqueIds(rows)
    ensures AddEffect(rows, events, user, app, now) ==
      if AllIdsParse(events) && !HasDuplicateId(ExpectedInserts(events, IdsOf(rows), user, app, now)) then
        Some((RowsAfter(rows, events, now) + ExpectedInserts(events, IdsOf(rows), user, app, now),
              ExpectedHistory(events, IdsOf(rows), user)))
      else None
  {
    ApplyEventsCharacterized(Session(rows, [], []), events, user, app, now);
    assert [] + ExpectedInserts(events, IdsOf(rows), user, app, now) == ExpectedInserts(events, IdsOf(rows), user, app, now);
    assert [] + ExpectedHistory(events, IdsOf(rows), user) == ExpectedHistory(events, IdsOf(rows), user);
  }

  // ---------------------------------------------------------------------
  // Properties of the reference description
  // ---------------------------------------------------------------------

  /** Events change state and content only: id, owner, app and timestamps of creation stay. */
  lemma {:induction false} RowAfterKeepsIdentity(m: Memory, events: seq<ChangeEvent>, now: Time)
    ensures var r := RowAfter(m, events, now);
      r.id == m.id && r.userId == m.userId && r.appId == m.appId && r.metadata == m.metadata && r.createdAt == m.createdAt
    decreases |events|
  {
    if |events| > 0 {
      RowAfterKeepsIdentity(RowStep(m, events[0], now), events[1..], now);
    }
  }

  /** A row that no event names is left exactly as it was. */
  lemma {:induction false} RowAfterUntouched(m: Memory, events: seq<ChangeEvent>, now: Time)
    requires forall k :: 0 <= k < |events| ==> !Names(events[k], m.id)
    ensures RowAfter(m, events, now) == m
    decreases |events|
  {
    if |events| > 0 {
      assert RowStep(m, events[0], now) == m;
      RowAfterUntouched(m, events[1..], now);
    }
  }

  /** A row that ends `deleted` was deleted before or met a DELETE event; it always has a `deleted_at`. */
  lemma {:induction false} RowAfterDeleted(m: Memory, events: seq<ChangeEvent>, now: Time)
    requires m.state == Deleted ==> m.deletedAt.Some?
    ensures var r := RowAfter(m, events, now);
      r.state == Deleted ==> (r.deletedAt.Some? &&
        (m.state == Deleted || exists k :: 0 <= k < |events| && events[k].event == "DELETE" && Names(events[k], m.id)))
    decreases |events|
  {
    if |events| > 0 {
      var m1 := RowStep(m, events[0], now);
      assert m1.id == m.id;
      RowAfterDeleted(m1, events[1..], now);
      var r := RowAfter(m, events, now);
      if r.state == Deleted && m1.state == Deleted && m.state != Deleted {
        assert events[0].event == "DELETE" && Names(events[0], m.id);
      }
      if r.state == Deleted && m1.state != Deleted {
        var k :| 0 <= k < |events[1..]| && events[1..][k].event == "DELETE" && Names(events[1..][k], m1.id);
        assert events[k + 1] == events[1..][k];
      }
    }
  }

  /** Every DELETE of a pre-existing id leaves an active-to-deleted entry in the history. */
  lemma {:induction false} DeleteEventsRecorded(events: seq<ChangeEvent>, ids: seq<Uuid>, user: User, k: nat, id: Uuid)
    requires k < |events| && events[k].event == "DELETE" && Names(events[k], id) && id in ids
    ensures DeletionRecorded(ExpectedHistory(events, ids, user), id)
    decreases |events|
  {
    var h := ExpectedHistory(events, ids, user);
    if k == 0 {
      assert EntryOf(events[0], ids, user) == [DeleteEntry(id, user)];
      assert h[0] == DeleteEntry(id, user);
    } else {
      DeleteEventsRecorded(events[1..], ids, user, k - 1, id);
      var t := ExpectedHistory(events[1..], ids, user);
      var j :| 0 <= j < |t| && t[j].memoryId == id && t[j].newState == Deleted;
      var head := EntryOf(events[0], ids, user);
      assert h == head + t;
      assert h[|head| + j] == t[j];
    }
  }

  /** `m` is a row inserted by an ADD among `events` for an id not among `ids`, on behalf of the caller. */
  ghost predicate InsertedBy(m: Memory, events: seq<ChangeEvent>, ids: seq<Uuid>, user: User, app: App)
  {
    m.id !in ids && IsCanonicalUuid(m.id) && m.state == Active &&
    m.userId == user.id && m.appId == app.id &&
    exists k :: 0 <= k < |events| && events[k].event == "ADD" && Names(events[k], m.id) && m.content == events[k].memory
  }

  /** Every inserted row is new, canonical, active, and carries the caller's user and app and its ADD's content. */
  lemma {:induction false} InsertedRowsAreFresh(events: seq<ChangeEvent>, ids: seq<Uuid>, user: User, app: App, now: Time)
    ensures forall m :: m in ExpectedInserts(events, ids, user, app, now) ==> InsertedBy(m, events, ids, user, app)
    decreases |events|
  {
    if |events| > 0 {
      InsertedRowsAreFresh(events[1..], ids, user, app, now);
      var head := InsertOf(events[0], ids, user, app, now);
      var tail := ExpectedInserts(events[1..], ids, user, app, now);
      var ins := ExpectedInserts(events, ids, user, app, now);
      assert ins == head + tail;
      forall m | m in ins ensures InsertedBy(m, events, ids, user, app) {
        if m in head {
          var id := ParseUuid(events[0].id).value;
          assert head == [NewRow(id, user, app, events[0].memory, now)];
          assert events[0].event == "ADD" && Names(events[0], m.id);
        } else {
          var t := m;
          assert t in tail;
          var k :| 0 <= k < |events[1..]| && events[1..][k].event == "ADD" && Names(events[1..][k], t.id) && t.content == events[1..][k].memory;
          assert events[k + 1] == events[1..][k];
        }
      }
    }
  }

  /** An entry written on behalf of `userId` that records deleted-to-active or active-to-deleted. */
  predicate ValidTransition(h: StatusHistory, userId: UserRef)
  {
    h.changedBy == userId &&
    (h.newState == Active ==> h.oldState == Some(Deleted)) &&
    (h.newState == Deleted ==> h.oldState == Some(Active))
  }

  /** History entries of an ADD always say deleted-to-active; those of a DELETE active-to-deleted. */
  lemma {:induction false} HistoryTransitions(events: seq<ChangeEvent>, ids: seq<Uuid>, user: User)
    ensures forall h :: h in ExpectedHistory(events, ids, user) ==> ValidTransition(h, user.id)
    decreases |events|
  {
    if |events| > 0 {
      HistoryTransitions(events[1..], ids, user);
      var head := EntryOf(events[0], ids, user);
      assert forall h :: h in head ==> ValidTransition(h, user.id);
      assert ExpectedHistory(events, ids, user) == head + ExpectedHistory(events[1..], ids, user);
    }
  }

  predicate IsAddEvent(e: ChangeEvent)
  {
    e.event == "ADD" && ParseUuid(e.id).Some?
  }

  predicate IsActivation(h: StatusHistory)
  {
    h.newState == Active
  }

  /** Exactly one activation entry per ADD event. */
  lemma {:induction false} OneActivationPerAdd(events: seq<ChangeEvent>, ids: seq<Uuid>, user: User)
    ensures |Filter(ExpectedHistory(events, ids, user), IsActivation)| == |Filter(events, IsAddEvent)|
    decreases |events|
  {
    if |events| > 0 {
      OneActivationPerAdd(events[1..], ids, user);
      var head := EntryOf(events[0], ids, user);
      FilterAppend(head, ExpectedHistory(events[1..], ids, user), IsActivation);
      assert |Filter(head, IsActivation)| == if IsAddEvent(events[0]) then 1 else 0 by {
        if |head| == 1 { assert head[1..] == []; }
      }
    }
  }

  /** The committed rows keep unique keys: updated rows keep theirs, inserted ones are new and distinct. */
  lemma CommitKeepsKeysUnique(rows: seq<Memory>, upd: seq<Memory>, ins: seq<Memory>)
    requires UniqueIds(rows) && UniqueIds(ins)
    requires |upd| == |rows| && forall i :: 0 <= i < |rows| ==> upd[i].id == rows[i].id
    requires forall j :: 0 <= j < |ins| ==> ins[j].id !in IdsOf(rows)
    ensures UniqueIds(upd + ins)
  {
    var all := upd + ins;
    forall i, j | 0 <= i < j < |all| ensures all[i].id != all[j].id {
      if j < |upd| {
        assert rows[i].id != rows[j].id;
      } else if i >= |upd| {
        assert all[i] == ins[i - |upd|] && all[j] == ins[j - |upd|];
      } else {
        assert all[j] == ins[j - |upd|];
        assert IdsOf(rows)[i] == rows[i].id;
      }
    }
  }

  /** A pre-existing row that ends deleted has its `deleted_at` and a recorded deletion. */
  lemma UpdatedRowDeletionRecorded(m: Memory, history: seq<StatusHistory>, events: seq<ChangeEvent>, ids: seq<Uuid>, user: User, now: Time)
    requires m.id in ids
    requires m.state == Deleted ==> m.deletedAt.Some? && DeletionRecorded(history, m.id)
    ensures var r := RowAfter(m, events, now);
      r.state == Deleted ==> (r.deletedAt.Some? && DeletionRecorded(history + ExpectedHistory(events, ids, user), r.id))
  {
    var hist := ExpectedHistory(events, ids, user);
    RowAfterDeleted(m, events, now);
    RowAfterKeepsIdentity(m, events, now);
    if RowAfter(m, events, now).state == Deleted {
      if m.state == Deleted {
        RecordedInLonger(history, hist, m.id);
      } else {
        var k :| 0 <= k < |events| && events[k].event == "DELETE" && Names(events[k], m.id);
        DeleteEventsRecorded(events, ids, user, k, m.id);
        var j :| 0 <= j < |hist| && hist[j].memoryId == m.id && hist[j].newState == Deleted;
        assert (history + hist)[|history| + j] == hist[j];
      }
    }
  }

  /** One `add_memories` commit keeps the relational invariant. */
  lemma AddEffectConsistent(rows: seq<Memory>, history: seq<StatusHistory>, events: seq<ChangeEvent>, user: User, app: App, now: Time)
    requires Consistent(rows, history)
    requires AddEffect(rows, events, user, app, now).Some?
    ensures var r := AddEffect(rows, events, user, app, now).value;
      Consistent(r.0, history + r.1)
  {
    var ids := IdsOf(rows);
    var ins := ExpectedInserts(events, ids, user, app, now);
    var hist := ExpectedHistory(events, ids, user);
    var upd := RowsAfter(rows, events, now);
    assert AddEffect(rows, events, user, app, now).value == (upd + ins, hist) && !HasDuplicateId(ins) by {
      AddEffectCharacterized(rows, events, user, app, now);
    }
    CommitConsistent(rows, history, events, user, app, now);
  }

  /** The rows and history the reference description gives keep the invariant when the inserts are unique. */
  lemma CommitConsistent(rows: seq<Memory>, history: seq<StatusHistory>, events: seq<ChangeEvent>, user: User, app: App, now: Time)
    requires Consistent(rows, history)
    requires !HasDuplicateId(ExpectedInserts(events, IdsOf(rows), user, app, now))
    ensures Consistent(RowsAfter(rows, events, now) + ExpectedInserts(events, IdsOf(rows), user, app, now),
                       history + ExpectedHistory(events, IdsOf(rows), user))
  {
    var ids := IdsOf(rows);
    var ins := ExpectedInserts(events, ids, user, app, now);
    var hist := ExpectedHistory(events, ids, user);
    var upd := RowsAfter(rows, events, now);
    var all := upd + ins;
    InsertedRowsAreFresh(events, ids, user, app, now);
    DuplicateIdIsNotUnique(ins);
    forall i | 0 <= i < |rows| ensures upd[i].id == rows[i].id {
      RowAfterKeepsIdentity(rows[i], events, now);
    }
    forall j | 0 <= j < |ins| ensures ins[j].id !in IdsOf(rows) {
      assert ins[j] in ins;
    }
    CommitKeepsKeysUnique(rows, upd, ins);
    forall i | 0 <= i < |all| ensures IsCanonicalUuid(all[i].id) && (i >= |upd| ==> all[i].state == Active) {
      if i >= |upd| {
        assert all[i] == ins[i - |upd|];
        assert all[i] in ins;
      }
    }
    forall i | 0 <= i < |all| && all[i].state == Deleted
      ensures all[i].deletedAt.Some? && DeletionRecorded(history + hist, all[i].id)
    {
      if i < |upd| {
        assert ids[i] == rows[i].id;
        UpdatedRowDeletionRecorded(rows[i], history, events, ids, user, now);
      }
    }
  }

  // ---------------------------------------------------------------------
  // Single events, as the server's callers see them
  // ---------------------------------------------------------------------

  lemma RowAfterOne(m: Memory, e: ChangeEvent, now: Time)
    ensures RowAfter(m, [e], now) == RowStep(m, e, now)
  {
    assert [e][1..] == [];
  }

  lemma RowAfterTwo(m: Memory, a: ChangeEvent, b: ChangeEvent, now: Time)
    ensures RowAfter(m, [a, b], now) == RowStep(RowStep(m, a, now), b, now)
  {
    assert [a, b][1..] == [b];
    RowAfterOne(RowStep(m, a, now), b, now);
  }

  /** An ADD for an unknown id creates an active row for the caller and one deleted-to-active entry. */
  lemma AddOfUnknownIdCreatesRow(rows: seq<Memory>, e: ChangeEvent, id: Uuid, user: User, app: App, now: Time)
    requires UniqueIds(rows) && e.event == "ADD" && Names(e, id) && !HasId(rows, id)
    ensures AddEffect(rows, [e], user, app, now) ==
      Some((rows + [NewRow(id, user, app, e.memory, now)], [StatusHistory(id, user.id, Some(Deleted), Active)]))
  {
    AddEffectCharacterized(rows, [e], user, app, now);
    assert id !in IdsOf(rows);
    assert [e][1..] == [];
    assert ExpectedInserts([e], IdsOf(rows), user, app, now) == [NewRow(id, user, app, e.memory, now)];
    assert ExpectedHistory([e], IdsOf(rows), user) == [AddEntry(id, user)];
    forall i | 0 <= i < |rows| ensures RowsAfter(rows, [e], now)[i] == rows[i] {
      RowAfterOne(rows[i], e, now);
      assert rows[i].id != id;
    }
    assert RowsAfter(rows, [e], now) == rows;
  }

  /** An ADD for an existing id reactivates it with the new content; owner and app stay. */
  lemma AddOfKnownIdReactivates(rows: seq<Memory>, e: ChangeEvent, i: nat, user: User, app: App, now: Time)
    requires UniqueIds(rows) && i < |rows| && e.event == "ADD" && Names(e, rows[i].id)
    ensures AddEffect(rows, [e], user, app, now) ==
      Some((rows[i := rows[i].(state := Active, content := e.memory)], [StatusHistory(rows[i].id, user.id, Some(Deleted), Active)]))
  {
    AddEffectCharacterized(rows, [e], user, app, now);
    assert rows[i].id in IdsOf(rows) by { assert IdsOf(rows)[i] == rows[i].id; }
    assert [e][1..] == [];
    assert ExpectedInserts([e], IdsOf(rows), user, app, now) == [];
    assert ExpectedHistory([e], IdsOf(rows), user) == [AddEntry(rows[i].id, user)];
    forall j | 0 <= j < |rows| ensures RowsAfter(rows, [e], now)[j] == rows[i := Reactivated(rows[i], e.memory)][j] {
      RowAfterOne(rows[j], e, now);
      if j != i { assert rows[j].id != rows[i].id; }
    }
    assert RowsAfter(rows, [e], now) + [] == rows[i := Reactivated(rows[i], e.memory)];
  }

  /** A DELETE for an existing id soft-deletes it and writes one active-to-deleted entry. */
  lemma DeleteOfKnownIdSoftDeletes(rows: seq<Memory>, e: ChangeEvent, i: nat, user: User, app: App, now: Time)
    requires UniqueIds(rows) && i < |rows| && e.event == "DELETE" && Names(e, rows[i].id)
    ensures AddEffect(rows, [e], user, app, now) ==
      Some((rows[i := rows[i].(state := Deleted, deletedAt := Some(now))], [StatusHistory(rows[i].id, user.id, Some(Active), Deleted)]))
  {
    AddEffectCharacterized(rows, [e], user, app, now);
    assert rows[i].id in IdsOf(rows) by { assert IdsOf(rows)[i] == rows[i].id; }
    assert [e][1..] == [];
    assert ExpectedInserts([e], IdsOf(rows), user, app, now) == [];
    assert ExpectedHistory([e], IdsOf(rows), user) == [DeleteEntry(rows[i].id, user)];
    forall j | 0 <= j < |rows| ensures RowsAfter(rows, [e], now)[j] == rows[i := SoftDeleted(rows[i], now)][j] {
      RowAfterOne(rows[j], e, now);
      if j != i { assert rows[j].id != rows[i].id; }
    }
    assert RowsAfter(rows, [e], now) + [] == rows[i := SoftDeleted(rows[i], now)];
  }

  /** Any other event kind, and a DELETE for an unknown id, change nothing. */
  lemma OtherEventsChangeNothing(rows: seq<Memory>, e: ChangeEvent, user: User, app: App, now: Time)
    requires UniqueIds(rows) && ParseUuid(e.id).Some?
    requires e.event != "ADD" && (e.event == "DELETE" ==> !HasId(rows, ParseUuid(e.id).value))
    ensures AddEffect(rows, [e], user, app, now) == Some((rows, []))
  {
    AddEffectCharacterized(rows, [e], user, app, now);
    var id := ParseUuid(e.id).value;
    assert e.event == "DELETE" ==> id !in IdsOf(rows);
    assert [e][1..] == [];
    assert ExpectedInserts([e], IdsOf(rows), user, app, now) == [];
    assert ExpectedHistory([e], IdsOf(rows), user) == [];
    forall j | 0 <= j < |rows| ensures RowsAfter(rows, [e], now)[j] == rows[j] {
      RowAfterOne(rows[j], e, now);
      assert e.event == "DELETE" ==> rows[j].id != id;
    }
    assert RowsAfter(rows, [e], now) + [] == rows;
  }

  /** A malformed id anywhere makes the whole call fail and write nothing. */
  lemma MalformedIdFailsTheCall(rows: seq<Memory>, events: seq<ChangeEvent>, k: nat, user: User, app: App, now: Time)
    requires UniqueIds(rows) && k < |events| && ParseUuid(events[k].id).None?
    ensures AddEffect(rows, events, user, app, now).None?
  {
    AddEffectCharacterized(rows, events, user, app, now);
  }

  /** A DELETE after the ADD of a new id in the same response finds no row (no autoflush) and does nothing. */
  lemma DeleteAfterAddOfNewIdIsNoOp(rows: seq<Memory>, add: ChangeEvent, del: ChangeEvent, id: Uuid, user: User, app: App, now: Time)
    requires UniqueIds(rows) && !HasId(rows, id)
    requires add.event == "ADD" && Names(add, id) && del.event == "DELETE" && Names(del, id)
    ensures AddEffect(rows, [add, del], user, app, now) ==
      Some((rows + [NewRow(id, user, app, add.memory, now)], [AddEntry(id, user)]))
  {
    AddEffectCharacterized(rows, [add, del], user, app, now);
    assert id !in IdsOf(rows);
    assert [add, del][1..] == [del] && [del][1..] == [];
    assert ExpectedInserts([del], IdsOf(rows), user, app, now) == [];
    assert ExpectedHistory([del], IdsOf(rows), user) == [];
    assert ExpectedInserts([add, del], IdsOf(rows), user, app, now) == [NewRow(id, user, app, add.memory, now)];
    assert ExpectedHistory([add, del], IdsOf(rows), user) == [AddEntry(id, user)];
    forall j | 0 <= j < |rows| ensures RowsAfter(rows, [add, del], now)[j] == rows[j] {
      RowAfterTwo(rows[j], add, del, now);
      assert rows[j].id != id;
    }
    assert RowsAfter(rows, [add, del], now) == rows;
  }

  /** Two ADDs of the same new id insert two rows with one key: the commit fails and nothing is written. */
  lemma DoubleAddOfNewIdFails(rows: seq<Memory>, a: ChangeEvent, b: ChangeEvent, id: Uuid, user: User, app: App, now: Time)
    requires UniqueIds(rows) && !HasId(rows, id)
    requires a.event == "ADD" && Names(a, id) && b.event == "ADD" && Names(b, id)
    ensures AddEffect(rows, [a, b], user, app, now).None?
  {
    AddEffectCharacterized(rows, [a, b], user, app, now);
    assert id !in IdsOf(rows);
    assert [a, b][1..] == [b] && [b][1..] == [];
    var ins := ExpectedInserts([a, b], IdsOf(rows), user, app, now);
    assert ExpectedInserts([b], IdsOf(rows), user, app, now) == [NewRow(id, user, app, b.memory, now)];
    assert ins == [NewRow(id, user, app, a.memory, now), NewRow(id, user, app, b.memory, now)];
    assert HasId(ins[1..], ins[0].id);
  }

  // ---------------------------------------------------------------------
  // delete_all_memories
  // ---------------------------------------------------------------------

  /** The rows after `delete_all`: exactly the listed ids soft-deleted, all with the same `deleted_at`. */
  function DeletedAll(rows: seq<Memory>, ids: seq<Uuid>, now: Time): (r: seq<Memory>)
    ensures |r| == |rows|
    ensures forall i :: 0 <= i < |rows| ==> r[i].id == rows[i].id
  {
    seq(|rows|, i requires 0 <= i < |rows| => if rows[i].id in ids then SoftDeleted(rows[i], now) else rows[i])
  }

  /**
   * The second loop of `delete_all_memories`, on a copy of the rows: each id
   * is looked up (it is one of the rows), soft-deleted, and earns one
   * history entry and one `delete_all` access log.
   */
  method SoftDeleteAll(rows: seq<Memory>, ids: seq<Uuid>, user: User, app: App, now: Time)
    returns (rows': seq<Memory>, history: seq<StatusHistory>, logs: seq<AccessLog>)
    requires UniqueIds(rows)
    requires forall k :: 0 <= k < |ids| ==> HasId(rows, ids[k])
    ensures rows' == DeletedAll(rows, ids, now)
    ensures |history| == |ids| && |logs| == |ids|
    ensures forall k :: 0 <= k < |ids| ==>
      history[k] == DeleteEntry(ids[k], user) && logs[k] == AccessLog(ids[k], app.id, DeleteAll, BulkDeleteMeta)
  {
    rows', history, logs := rows, [], [];
    var n := 0;
    while n < |ids|
      invariant 0 <= n <= |ids|
      invariant rows' == DeletedAll(rows, ids[..n], now)
      invariant DeleteRecorded(history, logs, ids[..n], user, app)
    {
      var id := ids[n];
      DeletedKeepsIds(rows, ids[..n], id, now);
      var at := FindRow(rows', id);
      DeletedAllSnoc(rows, ids[..n], at.value, now);
      DeleteRecordedSnoc(history, logs, ids[..n], id, user, app);
      rows' := rows'[at.value := SoftDeleted(rows'[at.value], now)];
      history := history + [DeleteEntry(id, user)];
      logs := logs + [AccessLog(id, app.id, DeleteAll, BulkDeleteMeta)];
      assert ids[..n + 1] == ids[..n] + [id];
      n := n + 1;
    }
    assert ids[..n] == ids;
  }

  /** One history entry and one access log per deleted id, in order. */
  predicate DeleteRecorded(history: seq<StatusHistory>, logs: seq<AccessLog>, ids: seq<Uuid>, user: User, app: App)
  {
    |history| == |ids| && |logs| == |ids| &&
    forall k :: 0 <= k < |ids| ==>
      history[k] == DeleteEntry(ids[k], user) && logs[k] == AccessLog(ids[k], app.id, DeleteAll, BulkDeleteMeta)
  }

  lemma DeleteRecordedSnoc(history: seq<StatusHistory>, logs: seq<AccessLog>, ids: seq<Uuid>, id: Uuid, user: User, app: App)
    requires DeleteRecorded(history, logs, ids, user, app)
    ensures DeleteRecorded(history + [DeleteEntry(id, user)], logs + [AccessLog(id, app.id, DeleteAll, BulkDeleteMeta)], ids + [id], user, app)
  {
  }

  /** Soft-deleting leaves the ids, so an id of the rows is still found. */
  lemma DeletedKeepsIds(rows: seq<Memory>, ids: seq<Uuid>, id: Uuid, now: Time)
    requires HasId(rows, id)
    ensures HasId(DeletedAll(rows, ids, now), id)
  {
    var j :| 0 <= j < |rows| && rows[j].id == id;
    assert DeletedAll(rows, ids, now)[j].id == id;
  }

  /** Soft-deleting the row of one more id. */
  lemma DeletedAllSnoc(rows: seq<Memory>, ids: seq<Uuid>, at: nat, now: Time)
    requires UniqueIds(rows) && at < |rows|
    ensures var d := DeletedAll(rows, ids, now);
      d[at := SoftDeleted(d[at], now)] == DeletedAll(rows, ids + [rows[at].id], now)
  {
    var d := DeletedAll(rows, ids, now);
    var e := DeletedAll(rows, ids + [rows[at].id], now);
    forall i | 0 <= i < |rows| ensures d[at := SoftDeleted(d[at], now)][i] == e[i] {
      if i != at {
        assert rows[i].id != rows[at].id;
      }
    }
  }

  /** `delete_all` keeps the relational invariant. */
  lemma DeleteAllConsistent(rows: seq<Memory>, history: seq<StatusHistory>, ids: seq<Uuid>, user: User, now: Time)
    requires Consistent(rows, history)
    ensures Consistent(DeletedAll(rows, ids, now), history + seq(|ids|, k requires 0 <= k < |ids| => DeleteEntry(ids[k], user)))
  {
    var r := DeletedAll(rows, ids, now);
    var extra := seq(|ids|, k requires 0 <= k < |ids| => DeleteEntry(ids[k], user));
    forall i | 0 <= i < |r| && r[i].state == Deleted ensures r[i].deletedAt.Some? && DeletionRecorded(history + extra, r[i].id) {
      if rows[i].id in ids {
        var k :| 0 <= k < |ids| && ids[k] == rows[i].id;
        assert (history + extra)[|history| + k] == extra[k];
      } else {
        RecordedInLonger(history, extra, rows[i].id);
      }
    }
  }
}
