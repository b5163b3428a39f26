/**
 * The four memory tools of the MCP server (`add_memories`, `search_memory`,
 * `list_memories`, `delete_all_memories`) over one relational store.
 *
 * Every tool opens a session, works on pending changes and commits them at
 * the end; an exception before the commit leaves the store as it was.  The
 * vector-store client, `get_user_and_app` and
 * `check_memory_access_permissions` are outside the model: what they return
 * is a parameter of each tool.
 */
module McpServer {
  import opened Common
  import opened MemoryModel
  import opened McpFilters
  import opened McpEvents

  const SlackBot: string := "slack-bot"
  const TextSearchMethod: string := "database_text"
  const TextSearchNote: string := "Using text search (vector store unavailable)"
  const DeletedAllText: string := "Successfully deleted all memories"

  datatype Tool = AddTool | SearchTool | ListTool | DeleteTool

  /** The prefix a tool puts before the text of an exception it catches. */
  function FailurePrefix(t: Tool): string
  {
    match t
    case AddTool => "Error adding to memory: "
    case SearchTool => "Error searching memory: "
    case ListTool => "Error getting memories: "
    case DeleteTool => "Error deleting memories: "
  }

  /** The exceptions the model can raise itself, and `Raised` for one from outside the model. */
  datatype Failure =
    | MalformedUuid        // ValueError of uuid.UUID
    | NotIterable          // TypeError of `x not in None`
    | NoPayload            // AttributeError of `None.get`
    | MissingIdKey         // KeyError of memory['id']
    | DuplicateKey         // the commit's primary-key violation
    | Raised(text: string)

  /** `str(e)`; the driver's wording of a key violation is not modelled. */
  function FailureText(f: Failure): string
  {
    match f
    case MalformedUuid => "badly formed hexadecimal UUID string"
    case NotIterable => "argument of type 'NoneType' is not iterable"
    case NoPayload => "'NoneType' object has no attribute 'get'"
    case MissingIdKey => "'id'"
    case DuplicateKey => "IntegrityError"
    case Raised(text) => text
  }

  /** The exception a faulty record raises in a `list_memories` loop. */
  function FaultFailure(f: RecordFault): (e: Failure)
    ensures e == MissingIdKey <==> f == NoIdKey
    ensures e == MalformedUuid <==> f == BadId
  {
    match f
    case NoIdKey => MissingIdKey
    case BadId => MalformedUuid
  }

  /** What a tool answers: one of its error strings, or its result. */
  datatype Reply<T> =
    | MissingUserId
    | MissingClientName
    | MemoryUnavailable
    | AppPaused(appName: string)
    | Failed(failure: Failure)
    | Done(value: T)

  /** The string a tool returns for an error reply; every one starts with `Error`. */
  function ErrorText<T>(tool: Tool, r: Reply<T>): (t: Option<string>)
    ensures t.None? <==> r.Done?
    ensures t.Some? ==> StartsWith(t.value, "Error")
  {
    if r.Done? then None
    else
      var rest := match r
        case MissingUserId => ": user_id not provided"
        case MissingClientName => ": client_name not provided"
        case MemoryUnavailable => ": Memory system is currently unavailable. Please try again later."
        case AppPaused(name) => ": App " + name + " is currently paused on OpenMemory. Cannot create new memories."
        case Failed(f) => FailurePrefix(tool)[5..] + FailureText(f);
      PrefixStartsWith("Error", rest);
      Some("Error" + rest)
  }

  /** The arguments `add_memories` passes to `memory_client.add`. */
  datatype AddRequest = AddRequest(text: string, userId: string, metadata: map<string, string>)

  function AddMetadata(clientName: string): map<string, string>
  {
    map["source_app" := "openmemory", "mcp_client" := clientName]
  }

  /** The arguments of `vector_store.search`: the query, `limit=10`, `filters={"user_id": uid}`. */
  datatype SearchRequest = SearchRequest(query: string, limit: nat, userFilter: string)

  /** What `memory_client.add` returns: a dict with `results`, or anything else. */
  datatype AddResponse = ChangeList(events: seq<ChangeEvent>) | OtherResponse

  /** The memory client as `add_memories` finds it. */
  datatype AddBackend = AddUnavailable | AddRaises(text: string) | AddReturns(response: AddResponse)

  /** The memory client as `search_memory` finds it: absent, failing in embed or search, or returning hits. */
  datatype SearchBackend = VectorUnavailable | VectorRaises(text: string) | VectorHits(hits: seq<Hit>)

  /** The memory client as `list_memories` finds it; `get_all` answers a dict with `results` or a plain list. */
  datatype ListBackend = ListUnavailable | ListRaises(text: string) | ResultsDict(items: seq<Record>) | PlainList(items: seq<Record>)

  /** The JSON `search_memory` answers: vector results, or text results with `search_method` and `note`. */
  datatype SearchAnswer = VectorAnswer(results: seq<VectorHit>) | TextAnswer(hits: seq<TextHit>)

  /** The uuid of a listed record (its id parses; `""` stands in otherwise). */
  function RecordUuid(x: Record): Uuid
  {
    if x.id.Some? && ParseUuid(x.id.value).Some? then ParseUuid(x.id.value).value else ""
  }

  function ListLogs(listed: seq<Record>, app: AppRef): seq<AccessLog>
  {
    seq(|listed|, k requires 0 <= k < |listed| => ListLog(RecordUuid(listed[k]), listed[k], app))
  }

  function VectorSearchLogs(results: seq<VectorHit>, query: string, app: AppRef): seq<AccessLog>
  {
    seq(|results|, k requires 0 <= k < |results| => SearchLog(results[k].id, results[k], query, app))
  }

  function DeleteHistory(ids: seq<Uuid>, user: User): seq<StatusHistory>
  {
    seq(|ids|, k requires 0 <= k < |ids| => DeleteEntry(ids[k], user))
  }

  function DeleteLogs(ids: seq<Uuid>, app: AppRef): seq<AccessLog>
  {
    seq(|ids|, k requires 0 <= k < |ids| => AccessLog(ids[k], app, DeleteAll, BulkDeleteMeta))
  }

  /**
   * The vector branch of `search_memory` once the hits are in: the
   * accessible set, the loop over the hits and the access logs.  It fails
   * when there is no accessible memory and any hit (`x not in None`), or when
   * an admitted hit has no payload; otherwise every result is an accessible
   * memory and gets one `search` log.
   */
  method VectorSearch(rows: seq<Memory>, user: User, app: App, perm: Permission, hits: seq<Hit>, query: string)
    returns (reply: Reply<SearchAnswer>, logs: seq<AccessLog>)
    requires forall i :: 0 <= i < |rows| ==> IsCanonicalUuid(rows[i].id)
    ensures reply.Failed? || (reply.Done? && reply.value.VectorAnswer?)
    ensures reply.Failed? ==> logs == []
    ensures var acc := AccessibleIds(rows, user.id, app.id, perm);
      (acc == [] ==> (reply.Failed? <==> hits != [])) &&
      (acc != [] ==> (reply.Failed? <==>
         exists k :: 0 <= k < |hits| && Admitted(hits[k], set x | x in acc) && hits[k].payload.None?))
    ensures reply.Failed? ==>
      reply == Failed(if AccessibleIds(rows, user.id, app.id, perm) == [] then NotIterable else NoPayload)
    ensures reply.Done? ==>
      var results := reply.value.results;
      (forall k :: 0 <= k < |results| ==> results[k].id in AccessibleIds(rows, user.id, app.id, perm)) &&
      logs == VectorSearchLogs(results, query, app.id)
    ensures reply.Done? ==>
      var acc := AccessibleIds(rows, user.id, app.id, perm);
      (acc == [] ==> reply.value.results == []) &&
      (acc != [] ==> Shaped(reply.value.results, Filter(hits, AdmittedBy(set x | x in acc))))
  {
    var accessible := AccessibleIds(rows, user.id, app.id, perm);
    var allowed := AllowedSet(accessible);
    var results := FilterHits(hits, allowed);
    if results.None? {
      if allowed.None? {
        return Failed(NotIterable), [];
      }
      return Failed(NoPayload), [];
    }
    var found := results.value;
    if allowed.Some? {
      FoundAdmitted(hits, allowed.value, found);
    }
    FoundCanonical(rows, user.id, app.id, perm, found);
    SearchLogsOfCanonicalIds(found);
    var r := SearchLogs(found, query, app.id);
    assert r.Some? by {
      forall k | 0 <= k < |found| ensures !MalformedId(found[k]) {
        assert ParseUuid(found[k].id) == Some(found[k].id);
      }
    }
    CanonicalLogs(r.value, found, query, app.id);
    return Done(VectorAnswer(found)), r.value;
  }

  /** With canonical ids, each result's log is under its own id. */
  lemma CanonicalLogs(logs: seq<AccessLog>, found: seq<VectorHit>, query: string, app: AppRef)
    requires forall k :: 0 <= k < |found| ==> ParseUuid(found[k].id) == Some(found[k].id)
    requires SearchLogged(logs, Filter(found, IdTruthy()), query, app)
    requires Filter(found, IdTruthy()) == found
    ensures logs == VectorSearchLogs(found, query, app)
  {
  }

  /** The results of the hit filter carry admitted ids. */
  lemma FoundAdmitted(hits: seq<Hit>, allowed: set<string>, found: seq<VectorHit>)
    requires Shaped(found, Filter(hits, AdmittedBy(allowed)))
    ensures forall k :: 0 <= k < |found| ==> found[k].id in allowed
  {
    var sel := Filter(hits, AdmittedBy(allowed));
    forall k | 0 <= k < |found| ensures found[k].id in allowed {
      assert AdmittedBy(allowed)(sel[k]);
    }
  }

  /** Ids drawn from canonical rows are canonical. */
  lemma FoundCanonical(rows: seq<Memory>, user: UserRef, app: AppRef, perm: Permission, found: seq<VectorHit>)
    requires forall i :: 0 <= i < |rows| ==> IsCanonicalUuid(rows[i].id)
    requires forall k :: 0 <= k < |found| ==> found[k].id in AccessibleIds(rows, user, app, perm)
    ensures forall k :: 0 <= k < |found| ==> IsCanonicalUuid(found[k].id)
  {
    forall k | 0 <= k < |found| ensures IsCanonicalUuid(found[k].id) {
      assert found[k].id in AccessibleIds(rows, user, app, perm);
      var i :| 0 <= i < |rows| && rows[i].id == found[k].id && Accessible(rows[i], user, app, perm);
    }
  }

  /** The three tables of the store. */
  class MemoryDb {
    var rows: seq<Memory>
    var history: seq<StatusHistory>
    var accessLog: seq<AccessLog>

    ghost predicate Valid()
      reads this
    {
      Consistent(rows, history)
    }

    constructor ()
      ensures Valid()
      ensures rows == [] && history == [] && accessLog == []
    {
      rows, history, accessLog := [], [], [];
    }

    /**
     * `add_memories(text)`: the argument checks, the paused-app check, the
     * call to `memory_client.add`, and the change events of its response.
     */
    method AddMemories(text: string, uid: Option<string>, clientName: Option<string>,
                       backend: AddBackend, identity: Result<(User, App)>, now: Time)
      returns (reply: Reply<AddResponse>, request: Option<AddRequest>)
      requires Valid()
      modifies this
      ensures Valid()
      ensures accessLog == old(accessLog)
      ensures !Truthy(uid) ==> reply == MissingUserId
      ensures Truthy(uid) && !Truthy(clientName) ==> reply == MissingClientName
      ensures Truthy(uid) && Truthy(clientName) && backend.AddUnavailable? ==> reply == MemoryUnavailable
      ensures Truthy(uid) && Truthy(clientName) && !backend.AddUnavailable? && identity.Err? ==>
        reply == Failed(Raised(identity.error))
      ensures Truthy(uid) && Truthy(clientName) && !backend.AddUnavailable? && identity.Ok? && !identity.value.1.isActive ==>
        reply == AppPaused(identity.value.1.name)
      ensures request.Some? <==>
        Truthy(uid) && Truthy(clientName) && !backend.AddUnavailable? && identity.Ok? && identity.value.1.isActive
      ensures request.Some? ==> request.value == AddRequest(text, uid.value, AddMetadata(clientName.value))
      ensures request.Some? && backend.AddRaises? ==> reply == Failed(Raised(backend.text))
      ensures request.Some? && backend.AddReturns? && backend.response.OtherResponse? ==> reply == Done(backend.response)
      ensures request.Some? && backend.AddReturns? && backend.response.ChangeList? ==>
        var effect := AddEffect(old(rows), backend.response.events, identity.value.0, identity.value.1, now);
        (reply.Done? <==> effect.Some?) &&
        (reply.Done? ==> reply == Done(backend.response) && rows == effect.value.0 && history == old(history) + effect.value.1) &&
        (!reply.Done? ==> reply == Failed(if AllIdsParse(backend.response.events) then DuplicateKey else MalformedUuid))
      ensures !(reply.Done? && backend.AddReturns? && backend.response.ChangeList?) ==>
        rows == old(rows) && history == old(history)
    {
      request := None;
      if !Truthy(uid) {
        return MissingUserId, None;
      }
      if !Truthy(clientName) {
        return MissingClientName, None;
      }
      if backend.AddUnavailable? {
        return MemoryUnavailable, None;
      }
      if identity.Err? {
        return Failed(Raised(identity.error)), None;
      }
      var user := identity.value.0;
      var app := identity.value.1;
      if !app.isActive {
        return AppPaused(app.name), None;
      }
      request := Some(AddRequest(text, uid.value, AddMetadata(clientName.value)));
      if backend.AddRaises? {
        return Failed(Raised(backend.text)), request;
      }
      var response := backend.response;
      if response.ChangeList? {
        var r := ApplyChanges(rows, response.events, user, app, now);
        if r.None? {
          if AllIdsParse(response.events) {
            return Failed(DuplicateKey), request;
          }
          return Failed(MalformedUuid), request;
        }
        AddEffectConsistent(rows, history, response.events, user, app, now);
        rows, history := r.value.0, history + r.value.1;
      }
      reply := Done(response);
    }

    /**
     * `search_memory(query)`: vector search filtered by the accessible set
     * when the memory client is there, the text fallback otherwise.  Only
     * access logs are written.
     */
    method SearchMemory(query: string, uid: Option<string>, clientName: Option<string>,
                        backend: SearchBackend, identity: Result<(User, App)>, perm: Permission)
      returns (reply: Reply<SearchAnswer>, request: Option<SearchRequest>)
      requires Valid()
      modifies this
      ensures Valid()
      ensures rows == old(rows) && history == old(history)
      ensures !reply.Done? ==> accessLog == old(accessLog)
      ensures !Truthy(uid) ==> reply == MissingUserId
      ensures Truthy(uid) && !Truthy(clientName) ==> reply == MissingClientName
      ensures Truthy(uid) && Truthy(clientName) && identity.Err? ==> reply == Failed(Raised(identity.error))
      ensures request.Some? <==> Truthy(uid) && Truthy(clientName) && identity.Ok? && !backend.VectorUnavailable?
      ensures request.Some? ==> request.value == SearchRequest(query, SearchLimit, uid.value)
      ensures request.Some? && backend.VectorRaises? ==> reply == Failed(Raised(backend.text))
      ensures Truthy(uid) && Truthy(clientName) && identity.Ok? && backend.VectorUnavailable? ==>
        var user := identity.value.0;
        var app := identity.value.1;
        reply == Done(TextAnswer(TextResults(old(rows), user.id, app.id, query, perm))) &&
        accessLog == old(accessLog) + TextSearchLogs(old(rows), user.id, app.id, query, perm)
      ensures request.Some? && backend.VectorHits? ==>
        var acc := AccessibleIds(old(rows), identity.value.0.id, identity.value.1.id, perm);
        (acc == [] ==> (reply.Failed? <==> backend.hits != [])) &&
        (acc != [] ==> (reply.Failed? <==>
           exists k :: 0 <= k < |backend.hits| && Admitted(backend.hits[k], set x | x in acc) && backend.hits[k].payload.None?)) &&
        (reply.Failed? || reply.Done?) &&
        (reply.Failed? ==> reply == Failed(if acc == [] then NotIterable else NoPayload))
      ensures reply.Done? && reply.value.VectorAnswer? ==>
        var results := reply.value.results;
        var acc := AccessibleIds(old(rows), identity.value.0.id, identity.value.1.id, perm);
        request.Some? && backend.VectorHits? &&
        (forall k :: 0 <= k < |results| ==> results[k].id in acc) &&
        accessLog == old(accessLog) + VectorSearchLogs(results, query, identity.value.1.id)
      ensures reply.Done? && reply.value.VectorAnswer? ==>
        var acc := AccessibleIds(old(rows), identity.value.0.id, identity.value.1.id, perm);
        (acc == [] ==> reply.value.results == []) &&
        (acc != [] ==> Shaped(reply.value.results, Filter(backend.hits, AdmittedBy(set x | x in acc))))
    {
      request := None;
      if !Truthy(uid) {
        return MissingUserId, None;
      }
      if !Truthy(clientName) {
        return MissingClientName, None;
      }
      if identity.Err? {
        return Failed(Raised(identity.error)), None;
      }
      var user := identity.value.0;
      var app := identity.value.1;
      if backend.VectorUnavailable? {
        var candidates := TextCandidates(rows, user.id, app.id, query);
        var hits, logs := TextSearch(candidates, app.id, query, perm);
        var allowed := Filter(candidates, PermittedBy(app.id, perm));
        assert hits == TextResults(rows, user.id, app.id, query, perm);
        assert logs == TextSearchLogs(rows, user.id, app.id, query, perm);
        accessLog := accessLog + logs;
        return Done(TextAnswer(hits)), None;
      }
      request := Some(SearchRequest(query, SearchLimit, uid.value));
      if backend.VectorRaises? {
        return Failed(Raised(backend.text)), request;
      }
      var logs;
      reply, logs := VectorSearch(rows, user, app, perm, backend.hits, query);
      accessLog := accessLog + logs;
    }

    /**
     * `list_memories()`: `slack-bot` gets everything `get_all` returns;
     * anyone else gets the records whose ids are accessible, each with a
     * `list` access log.
     */
    method ListMemories(uid: Option<string>, clientName: Option<string>,
                        backend: ListBackend, identity: Result<(User, App)>, perm: Permission)
      returns (reply: Reply<seq<Record>>)
      requires Valid()
      modifies this
      ensures Valid()
      ensures rows == old(rows) && history == old(history)
      ensures !reply.Done? ==> accessLog == old(accessLog)
      ensures !Truthy(uid) ==> reply == MissingUserId
      ensures Truthy(uid) && !Truthy(clientName) ==> reply == MissingClientName
      ensures Truthy(uid) && Truthy(clientName) && backend.ListUnavailable? ==> reply == MemoryUnavailable
      ensures Truthy(uid) && Truthy(clientName) && !backend.ListUnavailable? && identity.Err? ==>
        reply == Failed(Raised(identity.error))
      ensures Truthy(uid) && Truthy(clientName) && identity.Ok? && backend.ListRaises? ==> reply == Failed(Raised(backend.text))
      ensures Truthy(uid) && Truthy(clientName) && identity.Ok? && (backend.ResultsDict? || backend.PlainList?) ==>
        var app := identity.value.1.id;
        var acc := AccessibleIds(old(rows), identity.value.0.id, app, perm);
        (uid.value == SlackBot ==> reply == Done(backend.items) && accessLog == old(accessLog)) &&
        (uid.value != SlackBot && backend.ResultsDict? ==>
           (reply.Failed? <==> exists k :: 0 <= k < |backend.items| && backend.items[k].id.Some? && ParseUuid(backend.items[k].id.value).None?) &&
           (reply.Failed? ==> reply == Failed(MalformedUuid)) &&
           (reply.Done? ==> reply.value == Filter(backend.items, ListedIn(acc)) && accessLog == old(accessLog) + ListLogs(reply.value, app))) &&
        (uid.value != SlackBot && backend.PlainList? ==>
           (reply.Failed? <==> exists k :: 0 <= k < |backend.items| && PlainFault(backend.items[k]).Some?) &&
           (reply.Failed? ==> FirstPlainFault(backend.items).Some? && reply == Failed(FaultFailure(FirstPlainFault(backend.items).value))) &&
           (reply.Done? ==> reply.value == Filter(backend.items, ListedInRows(old(rows), app, perm)) && accessLog == old(accessLog) + ListLogs(reply.value, app)))
    {
      if !Truthy(uid) {
        return MissingUserId;
      }
      if !Truthy(clientName) {
        return MissingClientName;
      }
      if backend.ListUnavailable? {
        return MemoryUnavailable;
      }
      if identity.Err? {
        return Failed(Raised(identity.error));
      }
      var user := identity.value.0;
      var app := identity.value.1;
      if backend.ListRaises? {
        return Failed(Raised(backend.text));
      }
      if uid.value == SlackBot {
        return Done(backend.items);
      }
      var accessible := AccessibleIds(rows, user.id, app.id, perm);
      var r;
      if backend.ResultsDict? {
        r := ListFromResults(backend.items, accessible, app.id);
      } else {
        r := ListFromPlain(backend.items, rows, app.id, perm);
      }
      if r.Stopped? {
        return Failed(FaultFailure(r.fault));
      }
      assert r.logs == ListLogs(r.records, app.id);
      accessLog := accessLog + r.logs;
      reply := Done(r.records);
    }

    /**
     * `delete_all_memories()`: every accessible memory, whatever its state,
     * is deleted from the vector store (failures ignored) and soft-deleted
     * in the store with one shared timestamp, one history entry and one
     * `delete_all` access log.
     */
    method DeleteAllMemories(uid: Option<string>, clientName: Option<string>, clientAvailable: bool,
                             identity: Result<(User, App)>, perm: Permission, now: Time)
      returns (reply: Reply<string>, vectorDeletes: seq<Uuid>)
      requires Valid()
      modifies this
      ensures Valid()
      ensures !Truthy(uid) ==> reply == MissingUserId
      ensures Truthy(uid) && !Truthy(clientName) ==> reply == MissingClientName
      ensures Truthy(uid) && Truthy(clientName) && !clientAvailable ==> reply == MemoryUnavailable
      ensures Truthy(uid) && Truthy(clientName) && clientAvailable && identity.Err? ==> reply == Failed(Raised(identity.error))
      ensures reply.Done? <==> Truthy(uid) && Truthy(clientName) && clientAvailable && identity.Ok?
      ensures !reply.Done? ==>
        vectorDeletes == [] && rows == old(rows) && history == old(history) && accessLog == old(accessLog)
      ensures reply.Done? ==>
        var user := identity.value.0;
        var app := identity.value.1;
        var acc := AccessibleIds(old(rows), user.id, app.id, perm);
        reply == Done(DeletedAllText) &&
        vectorDeletes == acc &&
        rows == DeletedAll(old(rows), acc, now) &&
        history == old(history) + DeleteHistory(acc, user) &&
        accessLog == old(accessLog) + DeleteLogs(acc, app.id)
    {
      vectorDeletes := [];
      if !Truthy(uid) {
        return MissingUserId, [];
      }
      if !Truthy(clientName) {
        return MissingClientName, [];
      }
      if !clientAvailable {
        return MemoryUnavailable, [];
      }
      if identity.Err? {
        return Failed(Raised(identity.error)), [];
      }
      var user := identity.value.0;
      var app := identity.value.1;
      var accessible := AccessibleIds(rows, user.id, app.id, perm);
      vectorDeletes := accessible;
      forall k | 0 <= k < |accessible| ensures HasId(rows, accessible[k]) {
        assert accessible[k] in accessible;
      }
      var rows', entries, logs := SoftDeleteAll(rows, accessible, user, app, now);
      assert entries == DeleteHistory(accessible, user);
      assert logs == DeleteLogs(accessible, app.id);
      DeleteAllConsistent(rows, history, accessible, user, now);
      rows, history, accessLog := rows', history + entries, accessLog + logs;
      reply := Done(DeletedAllText);
    }
  }

  /**
   * After `delete_all`, the text fallback finds nothing for the same user,
   * app and permission check: every row it could return was soft-deleted.
   */
  lemma TextSearchAfterDeleteAllIsEmpty(rows: seq<Memory>, user: UserRef, app: AppRef, perm: Permission, query: string, now: Time)
    ensures TextResults(DeletedAll(rows, AccessibleIds(rows, user, app, perm), now), user, app, query, perm) == []
  {
    var acc := AccessibleIds(rows, user, app, perm);
    var after := DeletedAll(rows, acc, now);
    var cands := TextCandidates(after, user, app, query);
    forall k | 0 <= k < |cands| ensures !PermittedBy(app, perm)(cands[k]) {
      var m := cands[k];
      var i :| 0 <= i < |after| && after[i] == m;
      if rows[i].id !in acc {
        assert !Accessible(rows[i], user, app, perm);
      }
    }
    FilterNone(cands, PermittedBy(app, perm));
  }

  /** The accessible set ignores state, so `delete_all` run twice soft-deletes the same rows again. */
  lemma DeleteAllAgainTargetsSameRows(rows: seq<Memory>, user: UserRef, app: AppRef, perm: Permission, now: Time)
    requires forall i :: 0 <= i < |rows| ==> perm(rows[i], app) == perm(SoftDeleted(rows[i], now), app)
    ensures var after := DeletedAll(rows, AccessibleIds(rows, user, app, perm), now);
      forall id :: id in AccessibleIds(after, user, app, perm) <==> id in AccessibleIds(rows, user, app, perm)
  {
    var acc := AccessibleIds(rows, user, app, perm);
    var after := DeletedAll(rows, acc, now);
    forall id ensures id in AccessibleIds(after, user, app, perm) <==> id in acc {
      if id in acc {
        var i :| 0 <= i < |rows| && rows[i].id == id && Accessible(rows[i], user, app, perm);
        assert after[i] == SoftDeleted(rows[i], now);
        assert Accessible(after[i], user, app, perm);
      }
      if id in AccessibleIds(after, user, app, perm) {
        var i :| 0 <= i < |after| && after[i].id == id && Accessible(after[i], user, app, perm);
        if rows[i].id in acc {
          assert Accessible(rows[i], user, app, perm);
        }
      }
    }
  }
}
