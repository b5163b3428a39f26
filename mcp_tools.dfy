/**
 * The two tools that are not tied to a caller: `search_slack_channels`,
 * which searches the memories of the `slack-bot` user for everyone, and
 * `sync_vector_store`, which runs the resynchronisation batch and reports
 * its statistics.
 */
module McpTools {
  import opened Common
  import opened MemoryModel
  import opened TextMatch
  import opened McpServer
  import opened SyncQdrant

  /** The user that owns every Slack memory. */
  const SlackUserId: string := "slack-bot"

  const NotLoadedText: string := "Slack data not loaded yet. Run load_slack_channel tool first."
  const SlackSearchFailedPrefix: string := "Search failed: "
  const SlackVectorMethod: string := "qdrant_vector"
  const SlackTextNote: string := "Using text search (vector store unavailable)"

  /** One entry of `results`: the Slack fields read from a memory's metadata. */
  datatype SlackHit = SlackHit(
    id: Option<string>,
    content: Option<string>,
    channel: Option<string>,
    user: Option<string>,
    timestamp: Option<string>,
    score: real)

  /** What the tool answers. */
  datatype SlackReply =
    | NotLoaded
    | SearchFailed(error: string)
    | SlackVectorAnswer(results: seq<SlackHit>, query: string, channelFilter: Option<string>)
    | SlackTextAnswer(results: seq<SlackHit>, query: string, channelFilter: Option<string>)

  /** The JSON `error` of a reply that has one. */
  function SlackErrorText(r: SlackReply): (t: Option<string>)
    ensures t.Some? <==> r.NotLoaded? || r.SearchFailed?
    ensures r.SearchFailed? ==> t == Some(SlackSearchFailedPrefix + r.error) && StartsWith(t.value, SlackSearchFailedPrefix)
  {
    match r
    case NotLoaded => Some(NotLoadedText)
    case SearchFailed(e) => PrefixStartsWith(SlackSearchFailedPrefix, e); Some(SlackSearchFailedPrefix + e)
    case _ => None
  }

  /** The filters handed to the vector store: always the owner, and the channel when one is given. */
  function SlackFilters(channel: Option<string>): (f: map<string, string>)
    ensures "user_id" in f && f["user_id"] == SlackUserId
    ensures "metadata.slack_channel_name" in f <==> Truthy(channel)
    ensures Truthy(channel) ==> f["metadata.slack_channel_name"] == channel.value
    ensures forall k :: k in f ==> k == "user_id" || k == "metadata.slack_channel_name"
  {
    var base := map["user_id" := SlackUserId];
    if Truthy(channel) then base["metadata.slack_channel_name" := channel.value] else base
  }

  /** The vector search the tool asks for. */
  datatype SlackRequest = SlackRequest(query: string, limit: nat, filters: map<string, string>)

  /** `metadata.get("slack_real_name") or metadata.get("slack_user_name")`, and the channel and timestamp fields. */
  function SlackHitOf(id: Option<string>, content: Option<string>, metadata: Metadata, score: real): (h: SlackHit)
    ensures h.id == id && h.content == content && h.score == score
    ensures h.channel == Get(metadata, "slack_channel_name") && h.timestamp == Get(metadata, "message_ts")
    ensures Truthy(Get(metadata, "slack_real_name")) ==> h.user == Get(metadata, "slack_real_name")
    ensures !Truthy(Get(metadata, "slack_real_name")) ==> h.user == Get(metadata, "slack_user_name")
  {
    SlackHit(id, content, Get(metadata, "slack_channel_name"),
             OrElse(Get(metadata, "slack_real_name"), Get(metadata, "slack_user_name")),
             Get(metadata, "message_ts"), score)
  }

  /** A vector hit, read through `payload or {}` and `payload.get("metadata", {})`. */
  function SlackHitOfVector(h: Hit): SlackHit
  {
    var content := if h.payload.Some? then h.payload.value.data else None;
    var metadata := if h.payload.Some? && h.payload.value.metadata.Some? then h.payload.value.metadata.value else map[];
    SlackHitOf(h.id, content, metadata, h.score)
  }

  /** A database row, read through `metadata_ or {}` and scored 1.0. */
  function SlackHitOfRow(m: Memory): SlackHit
  {
    SlackHitOf(Some(m.id), Some(m.content), if m.metadata.Some? then m.metadata.value else map[], 1.0)
  }

  /** The loop over the vector hits: no permission check, every hit is reported, in order. */
  method SlackVectorResults(hits: seq<Hit>) returns (results: seq<SlackHit>)
    ensures |results| == |hits|
    ensures forall k :: 0 <= k < |hits| ==> results[k] == SlackHitOfVector(hits[k])
  {
    results := [];
    for k := 0 to |hits|
      invariant |results| == k
      invariant forall j :: 0 <= j < k ==> results[j] == SlackHitOfVector(hits[j])
    {
      results := results + [SlackHitOfVector(hits[k])];
    }
  }

  /** `db.query(User).filter(User.user_id == "slack-bot").first()`. */
  function FirstUser(users: seq<User>, userId: string): (r: Option<User>)
    ensures r.None? <==> forall k :: 0 <= k < |users| ==> users[k].userId != userId
    ensures r.Some? ==> r.value in users && r.value.userId == userId
    decreases |users|
  {
    if |users| == 0 then None
    else if users[0].userId == userId then Some(users[0])
    else FirstUser(users[1..], userId)
  }

  /** `Memory.metadata_["slack_channel_name"].astext == channel`; a row without metadata never matches. */
  predicate InChannel(m: Memory, channel: string)
  {
    m.metadata.Some? && "slack_channel_name" in m.metadata.value && m.metadata.value["slack_channel_name"] == channel
  }

  /** The conditions of the fallback query. */
  predicate SlackCandidate(m: Memory, bot: User, query: string, channel: Option<string>)
  {
    m.userId == bot.id && m.state == Active && ILike(m.content, ContainsPattern(query)) &&
    (Truthy(channel) ==> InChannel(m, channel.value))
  }

  function SlackCandidateBy(bot: User, query: string, channel: Option<string>): Memory -> bool
  {
    (m: Memory) => SlackCandidate(m, bot, query, channel)
  }

  /** The rows the fallback query returns: the matching rows in table order, at most `limit`. */
  function SlackRows(rows: seq<Memory>, bot: User, query: string, channel: Option<string>, limit: nat): seq<Memory>
  {
    Take(Filter(rows, SlackCandidateBy(bot, query, channel)), limit)
  }

  /** The loop over the fallback rows. */
  method SlackTextResults(memories: seq<Memory>) returns (results: seq<SlackHit>)
    ensures |results| == |memories|
    ensures forall k :: 0 <= k < |memories| ==> results[k] == SlackHitOfRow(memories[k])
  {
    results := [];
    for k := 0 to |memories|
      invariant |results| == k
      invariant forall j :: 0 <= j < k ==> results[j] == SlackHitOfRow(memories[j])
    {
      results := results + [SlackHitOfRow(memories[k])];
    }
  }

  /**
   * `search_slack_channels(query, channel, limit)`.  Without a `slack-bot`
   * user it answers "not loaded" whatever the vector store would say; with
   * a vector store it reports every hit; without one it searches the table.
   */
  method SearchSlackChannels(users: seq<User>, rows: seq<Memory>, query: string, channel: Option<string>,
                             limit: nat, backend: SearchBackend)
    returns (reply: SlackReply, request: Option<SlackRequest>)
    ensures FirstUser(users, SlackUserId).None? ==> reply == NotLoaded && request.None?
    ensures FirstUser(users, SlackUserId).Some? ==>
      var bot := FirstUser(users, SlackUserId).value;
      (backend.VectorUnavailable? ==>
         request.None? && reply.SlackTextAnswer? && reply.query == query && reply.channelFilter == channel &&
         var matched := SlackRows(rows, bot, query, channel, limit);
         |reply.results| == |matched| &&
         forall k :: 0 <= k < |matched| ==> reply.results[k] == SlackHitOfRow(matched[k])) &&
      (!backend.VectorUnavailable? ==> request == Some(SlackRequest(query, limit, SlackFilters(channel)))) &&
      (backend.VectorRaises? ==> reply == SearchFailed(backend.text)) &&
      (backend.VectorHits? ==>
         reply.SlackVectorAnswer? && reply.query == query && reply.channelFilter == channel &&
         |reply.results| == |backend.hits| &&
         forall k :: 0 <= k < |backend.hits| ==> reply.results[k] == SlackHitOfVector(backend.hits[k]))
  {
    var bot := FirstUser(users, SlackUserId);
    if bot.None? {
      return NotLoaded, None;
    }
    match backend
    case VectorUnavailable =>
      var matched := SlackRows(rows, bot.value, query, channel, limit);
      var results := SlackTextResults(matched);
      reply, request := SlackTextAnswer(results, query, channel), None;
    case VectorRaises(e) =>
      reply, request := SearchFailed(e), Some(SlackRequest(query, limit, SlackFilters(channel)));
    case VectorHits(hits) =>
      var results := SlackVectorResults(hits);
      reply, request := SlackVectorAnswer(results, query, channel), Some(SlackRequest(query, limit, SlackFilters(channel)));
  }

  /** What the fallback is meant to find, with the `ILike` pattern read as a case-folded substring test. */
  predicate SlackMatch(m: Memory, bot: User, query: string, channel: Option<string>)
  {
    m.userId == bot.id && m.state == Active && FoldedSubstring(m.content, query) &&
    (Truthy(channel) ==> InChannel(m, channel.value))
  }

  /** Every fallback row is an active `slack-bot` memory containing the query (case-folded), in the asked channel. */
  lemma SlackRowsSound(rows: seq<Memory>, bot: User, query: string, channel: Option<string>, limit: nat)
    requires NoWildcards(query)
    ensures var r := SlackRows(rows, bot, query, channel, limit);
      |r| <= limit &&
      forall m :: m in r ==> m in rows && SlackMatch(m, bot, query, channel)
  {
    var r := SlackRows(rows, bot, query, channel, limit);
    var all := Filter(rows, SlackCandidateBy(bot, query, channel));
    forall m | m in r
      ensures m in rows && SlackMatch(m, bot, query, channel)
    {
      assert m in all;
      var k :| 0 <= k < |all| && all[k] == m;
      ContainsPatternIsSubstring(m.content, query);
    }
  }

  /** Short of the limit, the fallback misses no matching row, and it keeps the table's order. */
  lemma SlackRowsComplete(rows: seq<Memory>, bot: User, query: string, channel: Option<string>, limit: nat)
    requires NoWildcards(query)
    ensures var r := SlackRows(rows, bot, query, channel, limit);
      IsSubsequence(r, rows) &&
      (|r| < limit ==> forall m :: m in rows && SlackMatch(m, bot, query, channel) ==> m in r)
  {
    var f := SlackCandidateBy(bot, query, channel);
    var all := Filter(rows, f);
    FilterIsSubsequence(rows, f);
    TakeIsSubsequence(all, limit, rows);
    forall m | m in rows && SlackMatch(m, bot, query, channel)
      ensures f(m)
    {
      ContainsPatternIsSubstring(m.content, query);
    }
  }

  /** A prefix of a subsequence is a subsequence. */
  lemma {:induction false} TakeIsSubsequence<T>(a: seq<T>, n: nat, b: seq<T>)
    requires IsSubsequence(a, b)
    ensures IsSubsequence(Take(a, n), b)
    decreases |b|
  {
    if n < |a| && n > 0 && |b| > 0 {
      if a[0] == b[0] {
        TakeIsSubsequence(a[1..], n - 1, b[1..]);
        assert Take(a, n)[1..] == Take(a[1..], n - 1);
      } else {
        TakeIsSubsequence(a, n, b[1..]);
      }
    }
  }

  // ---------------------------------------------------------------------
  // sync_vector_store
  // ---------------------------------------------------------------------

  /** A JSON value of the statistics dict. */
  datatype JsonValue = JInt(i: int) | JBool(b: bool) | JText(s: string)

  /** The dict `sync_qdrant` returns: `total`, `synced`, `errors`, `dry_run` and nothing else. */
  function StatsDict(s: Stats): (d: map<string, JsonValue>)
    ensures d.Keys == {"total", "synced", "errors", "dry_run"}
  {
    map["total" := JInt(s.total), "synced" := JInt(s.synced), "errors" := JInt(s.errors), "dry_run" := JBool(s.dryRun)]
  }

  /** The text of the `TypeError` raised when a missing `created_at` meets the cutoff. */
  const CutoffTypeError: string := "'<' not supported between instances of 'NoneType' and 'datetime.datetime'"

  function JsonText(v: JsonValue): string
  {
    match v
    case JText(s) => s
    case JInt(i) => IntToString(i)
    case JBool(b) => if b then "True" else "False"
  }

  /** What the tool answers: `status: success` with `statistics`, or `status: error` with the text. */
  datatype SyncReply = SyncSucceeded(statistics: map<string, JsonValue>) | SyncFailed(error: string)

  /**
   * The tool as written: after a successful run it builds the statistics
   * from `result["users_cleared"]`, a key the stats dict does not have.
   */
  function SyncVectorStoreAsWritten(result: Option<Stats>): SyncReply
  {
    match result
    case None => SyncFailed(CutoffTypeError)
    case Some(s) =>
      var d := StatsDict(s);
      if "error" in d then SyncFailed(JsonText(d["error"]))
      else if "total" !in d then SyncFailed(KeyErrorText("total"))
      else if "users_cleared" !in d then SyncFailed(KeyErrorText("users_cleared"))
      else if "synced" !in d then SyncFailed(KeyErrorText("synced"))
      else if "errors" !in d then SyncFailed(KeyErrorText("errors"))
      else SyncSucceeded(map["total_memories" := d["total"], "users_cleared" := d["users_cleared"],
                              "memories_synced" := d["synced"], "errors" := d["errors"]])
  }

  /** The tool never reports success: every completed sync is answered with the `KeyError` `'users_cleared'`. */
  lemma SyncVectorStoreAsWrittenAlwaysFails(result: Option<Stats>)
    ensures SyncVectorStoreAsWritten(result).SyncFailed?
    ensures result.Some? ==> SyncVectorStoreAsWritten(result) == SyncFailed("'users_cleared'")
  {
  }

  /** The report the tool evidently means: the three counters the stats dict has. */
  function SyncVectorStore(result: Option<Stats>): SyncReply
  {
    match result
    case None => SyncFailed(CutoffTypeError)
    case Some(s) =>
      var d := StatsDict(s);
      if "error" in d then SyncFailed(JsonText(d["error"]))
      else SyncSucceeded(map["total_memories" := d["total"], "memories_synced" := d["synced"], "errors" := d["errors"]])
  }

  /** A completed sync is reported as a success carrying its own counters; only a raised sync is an error. */
  lemma SyncVectorStoreReports(result: Option<Stats>)
    ensures SyncVectorStore(result).SyncSucceeded? <==> result.Some?
    ensures result.Some? ==>
      SyncVectorStore(result).statistics ==
        map["total_memories" := JInt(result.value.total), "memories_synced" := JInt(result.value.synced),
            "errors" := JInt(result.value.errors)]
  {
  }
}
