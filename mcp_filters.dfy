/**
 * The access-filtering loops of the memory tools (`search_memory`,
 * `list_memories`, `delete_all_memories`): which memories an app may see,
 * which vector hits survive, and the access-log rows each surfaced memory
 * earns.  Every method here works on values and changes no state.
 */
module McpFilters {
  import opened Common
  import opened MemoryModel
  import opened TextMatch

  /** Number of hits asked of the vector store and rows taken by the text fallback. */
  const SearchLimit: nat := 10

  /** One result of vector search: the dict built per surviving hit. */
  datatype VectorHit = VectorHit(
    id: string,
    memory: Option<string>,
    hash: Option<string>,
    createdAt: Option<string>,
    updatedAt: Option<string>,
    score: real)

  /** One result of the text-search fallback. */
  datatype TextHit = TextHit(
    id: Uuid,
    memory: string,
    createdAt: Option<Time>,
    updatedAt: Option<Time>,
    score: real)

  /**
   * A record of `memory_client.get_all`; `id` and `hash` are the keys the
   * server reads, `data` stands for the rest, which is returned unchanged.
   */
  datatype Record = Record(id: Option<string>, hash: Option<string>, data: Option<string>)

  // ---------------------------------------------------------------------
  // The accessible set
  // ---------------------------------------------------------------------

  /** Owned by the caller's user and passing the permission check; the state is not consulted. */
  predicate Accessible(m: Memory, user: UserRef, app: AppRef, perm: Permission)
  {
    m.userId == user && perm(m, app)
  }

  /** `[m.id for m in user_memories if check_memory_access_permissions(db, m, app.id)]`. */
  function AccessibleIds(rows: seq<Memory>, user: UserRef, app: AppRef, perm: Permission): (r: seq<Uuid>)
    ensures |r| <= |rows|
    ensures forall id :: id in r <==>
      exists i :: 0 <= i < |rows| && rows[i].id == id && Accessible(rows[i], user, app, perm)
    decreases |rows|
  {
    if |rows| == 0 then []
    else
      var tail := AccessibleIds(rows[1..], user, app, perm);
      assert forall i :: 1 <= i < |rows| ==> rows[i] == rows[1..][i - 1];
      if Accessible(rows[0], user, app, perm) then [rows[0].id] + tail else tail
  }

  /** Rows of every state can be in the accessible set. */
  lemma DeletedRowsStayAccessible(rows: seq<Memory>, i: nat, user: UserRef, app: AppRef, perm: Permission)
    requires i < |rows| && rows[i].state == Deleted && Accessible(rows[i], user, app, perm)
    ensures rows[i].id in AccessibleIds(rows, user, app, perm)
  {
  }

  /** `set(str(mid) for mid in ids) if ids else None`. */
  function AllowedSet(ids: seq<Uuid>): (r: Option<set<string>>)
    ensures r.None? <==> ids == []
    ensures r.Some? ==> forall x :: x in r.value <==> x in ids
  {
    if ids == [] then None else Some(set x | x in ids)
  }

  // ---------------------------------------------------------------------
  // Vector search
  // ---------------------------------------------------------------------

  /**
   * `allowed and h.id is None or h.id not in allowed`, which Python reads as
   * `(allowed and h.id is None) or (h.id not in allowed)`.  `None` stands for
   * the `TypeError` that `x not in None` raises.
   */
  function SkipHit(allowed: Option<set<string>>, id: Option<string>): Option<bool>
  {
    var truthy := allowed.Some? && allowed.value != {};
    if truthy && id.None? then Some(true)
    else if allowed.None? then None
    else Some(id.None? || id.value !in allowed.value)
  }

  /** A hit whose id is explicitly in the allowed set. */
  predicate Admitted(h: Hit, allowed: set<string>)
  {
    h.id.Some? && h.id.value in allowed
  }

  function AdmittedBy(allowed: set<string>): Hit -> bool
  {
    (h: Hit) => Admitted(h, allowed)
  }

  /** Once there is an allowed set, a hit is skipped exactly when it is not admitted. */
  lemma SkipHitIsNotAdmitted(allowed: set<string>, h: Hit)
    ensures SkipHit(Some(allowed), h.id) == Some(!Admitted(h, allowed))
  {
  }

  /** The result dict of one surviving hit; `payload.get` needs a payload. */
  function ToVectorHit(h: Hit): VectorHit
    requires h.id.Some? && h.payload.Some?
  {
    var p := h.payload.value;
    VectorHit(h.id.value, p.data, p.hash, p.createdAt, p.updatedAt, h.score)
  }

  /**
   * The loop over the hits.  `None` is an exception: `in None` when the
   * accessible set is empty and there is a hit, or an admitted hit with no
   * payload.  Otherwise the results are the admitted hits, in hit order.
   */
  method FilterHits(hits: seq<Hit>, allowed: Option<set<string>>) returns (r: Option<seq<VectorHit>>)
    ensures allowed.None? ==> (r.None? <==> hits != []) && (r.Some? ==> r.value == [])
    ensures allowed.Some? ==>
      (r.None? <==> exists k :: 0 <= k < |hits| && Admitted(hits[k], allowed.value) && hits[k].payload.None?)
    ensures allowed.Some? && r.Some? ==> Shaped(r.value, Filter(hits, AdmittedBy(allowed.value)))
  {
    if allowed.None? {
      if |hits| > 0 {
        return None;
      }
      return Some([]);
    }
    var admitted := AdmittedBy(allowed.value);
    var results: seq<VectorHit> := [];
    for i := 0 to |hits|
      invariant forall k :: 0 <= k < i && Admitted(hits[k], allowed.value) ==> hits[k].payload.Some?
      invariant Shaped(results, Filter(hits[..i], admitted))
    {
      var h := hits[i];
      var skip := SkipHit(allowed, h.id);
      assert hits[..i + 1] == hits[..i] + [h];
      FilterSnoc(hits[..i], h, admitted);
      SkipHitIsNotAdmitted(allowed.value, h);
      if !skip.value {
        if h.payload.None? {
          return None;
        }
        ShapedSnoc(results, Filter(hits[..i], admitted), h);
        results := results + [ToVectorHit(h)];
      }
    }
    assert hits[..|hits|] == hits;
    r := Some(results);
  }

  /** `results` are the result dicts of `sel`, in order: each selected hit has an id and a payload. */
  predicate Shaped(results: seq<VectorHit>, sel: seq<Hit>)
  {
    |results| == |sel| &&
    forall k :: 0 <= k < |sel| ==> sel[k].id.Some? && sel[k].payload.Some? && results[k] == ToVectorHit(sel[k])
  }

  lemma ShapedSnoc(results: seq<VectorHit>, sel: seq<Hit>, h: Hit)
    requires Shaped(results, sel) && h.id.Some? && h.payload.Some?
    ensures Shaped(results + [ToVectorHit(h)], sel + [h])
  {
  }

  /** Python's truthiness of `r.get("id")`. */
  function IdTruthy(): VectorHit -> bool
  {
    (h: VectorHit) => h.id != ""
  }

  /** The `search` access log of one surfaced vector hit. */
  function SearchLog(memoryId: Uuid, h: VectorHit, query: string, app: AppRef): AccessLog
  {
    AccessLog(memoryId, app, Search, VectorSearchMeta(query, h.score, h.hash))
  }

  /**
   * `for r in results: if r.get("id"): db.add(MemoryAccessLog(...))`.
   * `None` is the `ValueError` of `uuid.UUID(r["id"])` on a malformed id.
   */
  method SearchLogs(results: seq<VectorHit>, query: string, app: AppRef) returns (r: Option<seq<AccessLog>>)
    ensures r.None? <==> exists k :: 0 <= k < |results| && MalformedId(results[k])
    ensures r.Some? ==> SearchLogged(r.value, Filter(results, IdTruthy()), query, app)
  {
    var logs: seq<AccessLog> := [];
    for i := 0 to |results|
      invariant WellFormedUpTo(results, i)
      invariant SearchLogged(logs, Filter(results[..i], IdTruthy()), query, app)
    {
      var h := results[i];
      if h.id != "" {
        var id := ParseUuid(h.id);
        if id.None? {
          assert MalformedId(results[i]);
          return None;
        }
        SearchLoggedStep(results, i, logs, query, app);
        logs := logs + [SearchLog(id.value, h, query, app)];
      } else {
        FilterPrefixStep(results, i, IdTruthy());
      }
      assert !MalformedId(results[i]);
    }
    assert results[..|results|] == results;
    r := Some(logs);
  }

  /** No hit before position `i` has a malformed id. */
  predicate WellFormedUpTo(results: seq<VectorHit>, i: nat)
  {
    forall k :: 0 <= k < i && k < |results| ==> !MalformedId(results[k])
  }

  /** A truthy id that `uuid.UUID` rejects. */
  predicate MalformedId(h: VectorHit)
  {
    h.id != "" && ParseUuid(h.id).None?
  }

  /** `logs` are the access logs of the hits `f`, in order, each under its parsed id. */
  predicate SearchLogged(logs: seq<AccessLog>, f: seq<VectorHit>, query: string, app: AppRef)
  {
    |logs| == |f| &&
    forall k :: 0 <= k < |f| ==> ParseUuid(f[k].id).Some? && logs[k] == SearchLog(ParseUuid(f[k].id).value, f[k], query, app)
  }

  lemma SearchLoggedSnoc(logs: seq<AccessLog>, f: seq<VectorHit>, query: string, app: AppRef, h: VectorHit)
    requires SearchLogged(logs, f, query, app) && ParseUuid(h.id).Some?
    ensures SearchLogged(logs + [SearchLog(ParseUuid(h.id).value, h, query, app)], f + [h], query, app)
  {
  }

  /** One pass of the logging loop over a hit with a well-formed id. */
  lemma SearchLoggedStep(results: seq<VectorHit>, i: nat, logs: seq<AccessLog>, query: string, app: AppRef)
    requires i < |results| && results[i].id != "" && ParseUuid(results[i].id).Some?
    requires SearchLogged(logs, Filter(results[..i], IdTruthy()), query, app)
    ensures SearchLogged(logs + [SearchLog(ParseUuid(results[i].id).value, results[i], query, app)],
                         Filter(results[..i + 1], IdTruthy()), query, app)
  {
    FilterPrefixStep(results, i, IdTruthy());
    SearchLoggedSnoc(logs, Filter(results[..i], IdTruthy()), query, app, results[i]);
  }

  /** When every result id is canonical (as ids drawn from rows are), every result gets exactly its own log. */
  lemma SearchLogsOfCanonicalIds(results: seq<VectorHit>)
    requires forall k :: 0 <= k < |results| ==> IsCanonicalUuid(results[k].id)
    ensures Filter(results, IdTruthy()) == results
    ensures forall k :: 0 <= k < |results| ==> ParseUuid(results[k].id) == Some(results[k].id)
  {
    CanonicalIdsAreTruthy(results);
    forall k | 0 <= k < |results| ensures ParseUuid(results[k].id) == Some(results[k].id) {
      CanonicalParsesToItself(results[k].id);
    }
  }

  lemma {:induction false} CanonicalIdsAreTruthy(results: seq<VectorHit>)
    requires forall k :: 0 <= k < |results| ==> IsCanonicalUuid(results[k].id)
    ensures Filter(results, IdTruthy()) == results
    decreases |results|
  {
    if |results| > 0 {
      assert results[0].id != "" by { CanonicalIsNonEmpty(results[0].id); }
      assert forall k :: 0 <= k < |results[1..]| ==> results[1..][k] == results[k + 1];
      CanonicalIdsAreTruthy(results[1..]);
      assert [results[0]] + results[1..] == results;
    }
  }

  // ---------------------------------------------------------------------
  // Text-search fallback
  // ---------------------------------------------------------------------

  /** The filter of the fallback query: same user, same app, active, content `ILIKE '%query%'`. */
  predicate TextCandidate(m: Memory, user: UserRef, app: AppRef, query: string)
  {
    m.userId == user && m.appId == app && m.state == Active && ILike(m.content, ContainsPattern(query))
  }

  function CandidateBy(user: UserRef, app: AppRef, query: string): Memory -> bool
  {
    (m: Memory) => TextCandidate(m, user, app, query)
  }

  /** `db.query(Memory).filter(...).limit(10).all()`. */
  function TextCandidates(rows: seq<Memory>, user: UserRef, app: AppRef, query: string): (r: seq<Memory>)
    ensures |r| <= SearchLimit
    ensures forall k :: 0 <= k < |r| ==> r[k] in rows && TextCandidate(r[k], user, app, query)
  {
    var all := Filter(rows, CandidateBy(user, app, query));
    var r := Take(all, SearchLimit);
    assert forall k :: 0 <= k < |r| ==> r[k] == all[k];
    r
  }

  function PermittedBy(app: AppRef, perm: Permission): Memory -> bool
  {
    (m: Memory) => perm(m, app)
  }

  /** The result dict of one permitted fallback row: fixed score 1.0. */
  function TextHitOf(m: Memory): TextHit
  {
    TextHit(m.id, m.content, m.createdAt, m.updatedAt, 1.0)
  }

  /** The `search` access log of one fallback row. */
  function TextSearchLog(m: Memory, query: string, app: AppRef): AccessLog
  {
    AccessLog(m.id, app, Search, TextSearchMeta(query))
  }

  /** `hits` and `logs` are the result dicts and access logs of `allowed`, in order. */
  predicate TextShaped(hits: seq<TextHit>, logs: seq<AccessLog>, allowed: seq<Memory>, query: string, app: AppRef)
  {
    |hits| == |allowed| && |logs| == |allowed| &&
    forall k :: 0 <= k < |allowed| ==> hits[k] == TextHitOf(allowed[k]) && logs[k] == TextSearchLog(allowed[k], query, app)
  }

  lemma TextShapedSnoc(hits: seq<TextHit>, logs: seq<AccessLog>, allowed: seq<Memory>, query: string, app: AppRef, m: Memory)
    requires TextShaped(hits, logs, allowed, query, app)
    ensures TextShaped(hits + [TextHitOf(m)], logs + [TextSearchLog(m, query, app)], allowed + [m], query, app)
  {
  }

  /** The loop over the fallback rows: each permitted row gives one result and one log. */
  method TextSearch(candidates: seq<Memory>, app: AppRef, query: string, perm: Permission)
    returns (hits: seq<TextHit>, logs: seq<AccessLog>)
    ensures var allowed := Filter(candidates, PermittedBy(app, perm));
      |hits| == |allowed| && |logs| == |allowed| &&
      forall k :: 0 <= k < |allowed| ==> hits[k] == TextHitOf(allowed[k]) && logs[k] == TextSearchLog(allowed[k], query, app)
  {
    var permitted := PermittedBy(app, perm);
    hits, logs := [], [];
    for i := 0 to |candidates|
      invariant TextShaped(hits, logs, Filter(candidates[..i], permitted), query, app)
    {
      var m := candidates[i];
      assert candidates[..i + 1] == candidates[..i] + [m];
      FilterSnoc(candidates[..i], m, permitted);
      if perm(m, app) {
        TextShapedSnoc(hits, logs, Filter(candidates[..i], permitted), query, app, m);
        hits := hits + [TextHitOf(m)];
        logs := logs + [TextSearchLog(m, query, app)];
      }
    }
    assert candidates[..|candidates|] == candidates;
  }

  /** What the fallback answers, as one function of the rows. */
  function TextResults(rows: seq<Memory>, user: UserRef, app: AppRef, query: string, perm: Permission): seq<TextHit>
  {
    var allowed := Filter(TextCandidates(rows, user, app, query), PermittedBy(app, perm));
    seq(|allowed|, k requires 0 <= k < |allowed| => TextHitOf(allowed[k]))
  }

  /** The access logs the fallback writes, one per result. */
  function TextSearchLogs(rows: seq<Memory>, user: UserRef, app: AppRef, query: string, perm: Permission): seq<AccessLog>
  {
    var allowed := Filter(TextCandidates(rows, user, app, query), PermittedBy(app, perm));
    seq(|allowed|, k requires 0 <= k < |allowed| => TextSearchLog(allowed[k], query, app))
  }

  /**
   * At most ten results; each is an active row of the same user and app
   * whose content matches the query pattern, that passes the permission
   * check, and has score 1.0.
   */
  lemma TextResultsSound(rows: seq<Memory>, user: UserRef, app: AppRef, query: string, perm: Permission)
    ensures var r := TextResults(rows, user, app, query, perm);
      |r| <= SearchLimit &&
      forall k :: 0 <= k < |r| ==> (r[k].score == 1.0 &&
        exists m :: (m in rows && m.id == r[k].id && m.content == r[k].memory &&
          TextCandidate(m, user, app, query) && perm(m, app)))
  {
    var cands := TextCandidates(rows, user, app, query);
    var allowed := Filter(cands, PermittedBy(app, perm));
    var r := TextResults(rows, user, app, query, perm);
    forall k | 0 <= k < |r|
      ensures exists m :: (m in rows && m.id == r[k].id && m.content == r[k].memory &&
        TextCandidate(m, user, app, query) && perm(m, app))
    {
      var m := allowed[k];
      assert m in cands && PermittedBy(app, perm)(m);
      var j :| 0 <= j < |cands| && cands[j] == m;
      assert m in rows && TextCandidate(m, user, app, query);
    }
  }

  // ---------------------------------------------------------------------
  // list_memories
  // ---------------------------------------------------------------------

  /** Why a record stops a `list_memories` loop: no `id` key (`KeyError`) or a malformed id (`ValueError`). */
  datatype RecordFault = NoIdKey | BadId

  /** What a `list_memories` loop produces: the surfaced records with their logs, or the fault that stopped it. */
  datatype Listing = Listed(records: seq<Record>, logs: seq<AccessLog>) | Stopped(fault: RecordFault)

  /** The fault a record raises in the loop over a plain list, if any: the key lookup comes before the parse. */
  function PlainFault(x: Record): Option<RecordFault>
  {
    if x.id.None? then Some(NoIdKey)
    else if ParseUuid(x.id.value).None? then Some(BadId)
    else None
  }

  /** The fault of the first faulty record of a plain list, which is the one the loop raises. */
  function FirstPlainFault(items: seq<Record>): Option<RecordFault>
  {
    if items == [] then None
    else if PlainFault(items[0]).Some? then PlainFault(items[0])
    else FirstPlainFault(items[1..])
  }

  /** The first fault is the fault of a record that every earlier record lets through, and there is one exactly when some record is faulty. */
  lemma {:induction false} FirstPlainFaultIsFirst(items: seq<Record>)
    ensures FirstPlainFault(items).None? <==> forall k :: 0 <= k < |items| ==> PlainFault(items[k]).None?
    ensures FirstPlainFault(items).Some? ==>
      exists k :: 0 <= k < |items| && PlainFault(items[k]) == FirstPlainFault(items) &&
        forall j :: 0 <= j < k ==> PlainFault(items[j]).None?
    decreases |items|
  {
    if items != [] && PlainFault(items[0]).None? {
      FirstPlainFaultIsFirst(items[1..]);
      if FirstPlainFault(items).Some? {
        var k :| 0 <= k < |items[1..]| && PlainFault(items[1..][k]) == FirstPlainFault(items[1..]) &&
          forall j :: 0 <= j < k ==> PlainFault(items[1..][j]).None?;
        assert PlainFault(items[k + 1]) == FirstPlainFault(items);
        assert forall j :: 0 <= j < k + 1 ==> PlainFault(items[j]).None? by {
          forall j | 0 <= j < k + 1 ensures PlainFault(items[j]).None? {
            if j > 0 { assert items[j] == items[1..][j - 1]; }
          }
        }
      } else {
        forall k | 0 <= k < |items| ensures PlainFault(items[k]).None? {
          if k > 0 { assert items[k] == items[1..][k - 1]; }
        }
      }
    }
  }

  /** No record before position `i` of a plain list is faulty. */
  predicate NoFaultUpTo(items: seq<Record>, i: nat)
  {
    forall k :: 0 <= k < i && k < |items| ==> PlainFault(items[k]).None?
  }

  /** Scanning from position `i`: the record there raises, or the scan moves on. */
  lemma FirstPlainFaultStep(items: seq<Record>, i: nat)
    requires i < |items|
    ensures FirstPlainFault(items[i..]) ==
      if PlainFault(items[i]).Some? then PlainFault(items[i]) else FirstPlainFault(items[i + 1..])
  {
    assert items[i..][0] == items[i];
    assert items[i..][1..] == items[i + 1..];
  }

  /** A malformed id ahead of a missing one: the loop raises the `ValueError` of the first record, not the later `KeyError`. */
  lemma MalformedBeforeMissingRaisesValueError()
    ensures FirstPlainFault([Record(Some("zz"), None, None), Record(None, None, None)]) == Some(BadId)
  {
  }

  /** A record with an id whose parsed UUID is in the accessible list. */
  function ListedIn(accessible: seq<Uuid>): Record -> bool
  {
    (x: Record) => x.id.Some? && ParseUuid(x.id.value).Some? && ParseUuid(x.id.value).value in accessible
  }

  /** The `list` access log of one surfaced record. */
  function ListLog(memoryId: Uuid, x: Record, app: AppRef): AccessLog
  {
    AccessLog(memoryId, app, List, ListMeta(x.hash))
  }

  /**
   * The loop over `memories['results']`: records without an `id` key are
   * skipped; `None` is the `ValueError` of a malformed id.
   */
  method ListFromResults(items: seq<Record>, accessible: seq<Uuid>, app: AppRef)
    returns (r: Listing)
    ensures r.Stopped? <==> exists k :: 0 <= k < |items| && items[k].id.Some? && ParseUuid(items[k].id.value).None?
    ensures r.Stopped? ==> r.fault == BadId
    ensures r.Listed? ==>
      var f := Filter(items, ListedIn(accessible));
      r.records == f && |r.logs| == |f| &&
      forall k :: 0 <= k < |f| ==> (f[k].id.Some? && ParseUuid(f[k].id.value).Some? &&
        r.logs[k] == ListLog(ParseUuid(f[k].id.value).value, f[k], app))
  {
    var kept: seq<Record> := [];
    var logs: seq<AccessLog> := [];
    var i := 0;
    while i < |items|
      invariant 0 <= i <= |items|
      invariant forall k :: 0 <= k < i && items[k].id.Some? ==> ParseUuid(items[k].id.value).Some?
      invariant kept == Filter(items[..i], ListedIn(accessible)) && ListLogged(logs, kept, app)
    {
      var x := items[i];
      FilterPrefixStep(items, i, ListedIn(accessible));
      if x.id.Some? {
        var id := ParseUuid(x.id.value);
        if id.None? {
          return Stopped(BadId);
        }
        if id.value in accessible {
          ListLoggedSnoc(logs, kept, app, x);
          logs := logs + [ListLog(id.value, x, app)];
          kept := kept + [x];
        }
      }
      i := i + 1;
    }
    assert items[..i] == items;
    r := Listed(kept, logs);
  }

  /** A record whose id names some row (of any user) that passes the permission check. */
  function ListedInRows(rows: seq<Memory>, app: AppRef, perm: Permission): Record -> bool
  {
    (x: Record) => x.id.Some? && ParseUuid(x.id.value).Some? &&
      var at := FindRow(rows, ParseUuid(x.id.value).value);
      at.Some? && perm(rows[at.value], app)
  }

  /**
   * The loop over a plain list from `get_all`: every record must have an
   * `id` key (`KeyError` otherwise) and a well-formed one; the row is looked
   * up by id among all rows, not only the caller's.
   */
  method ListFromPlain(items: seq<Record>, rows: seq<Memory>, app: AppRef, perm: Permission)
    returns (r: Listing)
    ensures r.Stopped? <==> exists k :: 0 <= k < |items| && PlainFault(items[k]).Some?
    ensures r.Stopped? ==> FirstPlainFault(items) == Some(r.fault)
    ensures r.Listed? ==>
      var f := Filter(items, ListedInRows(rows, app, perm));
      r.records == f && |r.logs| == |f| &&
      forall k :: 0 <= k < |f| ==> (f[k].id.Some? && ParseUuid(f[k].id.value).Some? &&
        r.logs[k] == ListLog(ParseUuid(f[k].id.value).value, f[k], app))
  {
    var listed := ListedInRows(rows, app, perm);
    var kept: seq<Record> := [];
    var logs: seq<AccessLog> := [];
    for i := 0 to |items|
      invariant NoFaultUpTo(items, i)
      invariant FirstPlainFault(items) == FirstPlainFault(items[i..])
      invariant kept == Filter(items[..i], listed) && ListLogged(logs, kept, app)
    {
      var x := items[i];
      FirstPlainFaultStep(items, i);
      FilterPrefixStep(items, i, listed);
      if x.id.None? {
        assert PlainFault(items[i]).Some?;
        return Stopped(NoIdKey);
      }
      var id := ParseUuid(x.id.value);
      if id.None? {
        assert PlainFault(items[i]).Some?;
        return Stopped(BadId);
      }
      assert PlainFault(items[i]).None?;
      var at := FindRow(rows, id.value);
      if at.Some? && perm(rows[at.value], app) {
        ListLoggedSnoc(logs, kept, app, x);
        logs := logs + [ListLog(id.value, x, app)];
        kept := kept + [x];
      }
    }
    assert items[..|items|] == items;
    r := Listed(kept, logs);
  }

  /** `logs` are the `list` access logs of the records `f`, in order, each under its parsed id. */
  predicate ListLogged(logs: seq<AccessLog>, f: seq<Record>, app: AppRef)
  {
    |logs| == |f| &&
    forall k :: 0 <= k < |f| ==> (f[k].id.Some? && ParseUuid(f[k].id.value).Some? &&
      logs[k] == ListLog(ParseUuid(f[k].id.value).value, f[k], app))
  }

  lemma ListLoggedSnoc(logs: seq<AccessLog>, f: seq<Record>, app: AppRef, x: Record)
    requires ListLogged(logs, f, app) && x.id.Some? && ParseUuid(x.id.value).Some?
    ensures ListLogged(logs + [ListLog(ParseUuid(x.id.value).value, x, app)], f + [x], app)
  {
  }

  /** The listed records keep their order from the vector store. */
  lemma ListedKeepOrder(items: seq<Record>, accessible: seq<Uuid>)
    ensures IsSubsequence(Filter(items, ListedIn(accessible)), items)
  {
    FilterIsSubsequence(items, ListedIn(accessible));
  }

  /** The surviving vector hits keep their order from the vector store. */
  lemma AdmittedKeepOrder(hits: seq<Hit>, allowed: set<string>)
    ensures IsSubsequence(Filter(hits, AdmittedBy(allowed)), hits)
  {
    FilterIsSubsequence(hits, AdmittedBy(allowed));
  }
}
