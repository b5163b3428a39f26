/**
 * The relational rows of the memory server (`Memory`, `MemoryStatusHistory`,
 * `MemoryAccessLog`), the callers' user and app records, and the records the
 * vector store hands back.
 */
module MemoryModel {
  import opened Common

  /** A memory id in its canonical text form, `str(uuid.UUID(...))`. */
  type Uuid = string

  /** Internal primary keys of the `users` and `apps` tables. */
  type UserRef = string
  type AppRef = string

  /** JSON metadata; only string values are modelled. */
  type Metadata = map<string, string>

  /** A point in time, in microseconds (the resolution of Python's `datetime`). */
  type Time = int

  datatype MemoryState = Active | Deleted

  datatype Memory = Memory(
    id: Uuid,
    userId: UserRef,
    appId: AppRef,
    content: string,
    metadata: Option<Metadata>,
    state: MemoryState,
    createdAt: Option<Time>,
    updatedAt: Option<Time>,
    deletedAt: Option<Time>)

  /** One `MemoryStatusHistory` row; `oldState == None` is SQL NULL. */
  datatype StatusHistory = StatusHistory(
    memoryId: Uuid,
    changedBy: UserRef,
    oldState: Option<MemoryState>,
    newState: MemoryState)

  datatype AccessType = Search | List | DeleteAll

  /** The `metadata_` JSON of an access log row, one constructor per shape the server writes. */
  datatype LogMetadata =
    | VectorSearchMeta(query: string, score: real, hash: Option<string>)
    | TextSearchMeta(query: string)       // {"query": q, "search_method": "database_text"}
    | ListMeta(hash: Option<string>)
    | BulkDeleteMeta                      // {"operation": "bulk_delete"}

  datatype AccessLog = AccessLog(
    memoryId: Uuid,
    appId: AppRef,
    accessType: AccessType,
    metadata: LogMetadata)

  /** A row of `users`: internal key and the external `user_id`. */
  datatype User = User(id: UserRef, userId: string)

  /** A row of `apps`. */
  datatype App = App(id: AppRef, name: string, isActive: bool)

  /**
   * `check_memory_access_permissions(db, memory, app_id)`: its code is not
   * part of this model, so it is a parameter of every operation that calls it.
   */
  type Permission = (Memory, AppRef) -> bool

  /** The payload a vector-store hit carries (`data`, `hash`, timestamps, `metadata`). */
  datatype Payload = Payload(
    data: Option<string>,
    hash: Option<string>,
    createdAt: Option<string>,
    updatedAt: Option<string>,
    metadata: Option<Metadata>)

  /** One hit of `vector_store.search`: `h.id`, `h.score`, `h.payload`. */
  datatype Hit = Hit(id: Option<string>, score: real, payload: Option<Payload>)

  // ---------------------------------------------------------------------
  // uuid.UUID(text) and str(uuid)
  // ---------------------------------------------------------------------

  predicate IsHexDigit(c: char)
  {
    '0' <= c <= '9' || 'a' <= c <= 'f' || 'A' <= c <= 'F'
  }

  predicate IsLowerHexDigit(c: char)
  {
    '0' <= c <= '9' || 'a' <= c <= 'f'
  }

  predicate IsHyphenPosition(k: int)
  {
    k == 8 || k == 13 || k == 18 || k == 23
  }

  /** The 8-4-4-4-12 hyphenated form, hex digits of either case. */
  predicate IsHyphenatedUuid(s: string)
  {
    |s| == 36 &&
    forall k :: 0 <= k < 36 ==> if IsHyphenPosition(k) then s[k] == '-' else IsHexDigit(s[k])
  }

  /** What `str(uuid.UUID(...))` produces: hyphenated, lower-case. */
  predicate IsCanonicalUuid(s: string)
  {
    |s| == 36 &&
    forall k :: 0 <= k < 36 ==> if IsHyphenPosition(k) then s[k] == '-' else IsLowerHexDigit(s[k])
  }

  function LowerHex(c: char): char
  {
    if 'A' <= c <= 'F' then (c as int + 32) as char else c
  }

  /** `str(uuid.UUID(s))`, or `None` where `uuid.UUID(s)` raises `ValueError`. */
  function ParseUuid(s: string): (r: Option<Uuid>)
    ensures r.Some? <==> IsHyphenatedUuid(s)
    ensures r.Some? ==> IsCanonicalUuid(r.value) && |r.value| == |s|
    ensures r.Some? ==> forall k :: 0 <= k < |s| ==> LowerHex(s[k]) == r.value[k]
  {
    if IsHyphenatedUuid(s) then Some(seq(|s|, k requires 0 <= k < |s| => LowerHex(s[k]))) else None
  }

  /** A canonical id is read back as itself. */
  lemma CanonicalParsesToItself(s: string)
    requires IsCanonicalUuid(s)
    ensures ParseUuid(s) == Some(s)
  {
    var r := ParseUuid(s);
    assert r.Some?;
    assert r.value == s;
  }

  /** A canonical id is never empty, so it is truthy in Python. */
  lemma CanonicalIsNonEmpty(s: string)
    requires IsCanonicalUuid(s)
    ensures s != ""
  {
  }

  /** The ids of `rows` are pairwise distinct (the primary key). */
  ghost predicate UniqueIds(rows: seq<Memory>)
  {
    forall i, j :: 0 <= i < j < |rows| ==> rows[i].id != rows[j].id
  }

  predicate HasId(rows: seq<Memory>, id: Uuid)
  {
    exists i :: 0 <= i < |rows| && rows[i].id == id
  }

  /** `db.query(Memory).filter(Memory.id == id).first()`, as an index into `rows`. */
  function FindRow(rows: seq<Memory>, id: Uuid): (r: Option<nat>)
    ensures r.Some? ==> r.value < |rows| && rows[r.value].id == id
    ensures r.Some? ==> forall j :: 0 <= j < r.value ==> rows[j].id != id
    ensures r.None? <==> !HasId(rows, id)
    decreases |rows|
  {
    if |rows| == 0 then None
    else if rows[0].id == id then Some(0)
    else
      var t := FindRow(rows[1..], id);
      if t.None? then (assert forall i :: 1 <= i < |rows| ==> rows[i] == rows[1..][i - 1]; None)
      else Some(t.value + 1)
  }
}
