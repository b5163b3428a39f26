# OpenMemory MCP server core, modelled in Dafny

This project models the core of the OpenMemory memory server, with proofs about that model. The server has four parts:

- MCP tools (`add_memories`, `search_memory`, `list_memories`, `delete_all_memories`, `search_slack_channels`, `sync_vector_store`). They keep a relational store of memories with status history and access logs, next to a vector store.
- A bulk resync of the vector store from the relational rows (`sync_qdrant`).
- The choice of database URL (`get_database_url`, `build_database_url_from_secret`).
- A Slack helper (`SlackToolbox`) and a logging-configuration helper (`configure_logging`).

Modules, one per source concern:

- `Common`: Python idioms used throughout. Covers `str.startswith`, truthiness of optional strings, `a or b`, `dict.get`, `str(KeyError)`, `str(int)`, list comprehensions with a condition as `Filter`, `LIMIT n` as `Take`, and subsequences.
- `TextMatch`: SQL `ILIKE` with `%` and `_`, and the `%query%` pattern of the text fallbacks.
- `MemoryModel`: memory rows and `uuid.UUID` parsing. The only form modelled is the hyphenated one, lower-cased by `str`.
- `McpEvents`: the relational writes of `add_memories` and `delete_all_memories`.
  - Writes go to a session with `autoflush=False`. A lookup sees the committed rows, but not the rows added earlier in the same call.
  - A reference description of the whole effect sits beside the loop. One commit keeps the store's invariant: unique canonical keys, and every deleted row has a `deleted_at` and a recorded deletion.
- `McpFilters`: what `search_memory` and `list_memories` do between the backend's answer and the reply: the accessible set, the hit filter, the text fallback and the access logs.
- `McpServer`: the class `MemoryDb`, holding rows, status history and access log. It has one method per memory tool, with the tool's error strings.
- `McpTools`: `search_slack_channels` and `sync_vector_store`.
- `SyncQdrant`: the grouping and filtering loop of `sync_qdrant`, the bulk upsert per owner, the statistics, and Qdrant's upsert semantics.
- `UrlEncoding`: UTF-8 and `quote_plus`/`unquote_plus` (unreserved set of section 2.3 of RFC 3986, `+` for space, `%XX` upper-case), with the round trip proved.
- `Secrets`: the PostgreSQL URL built from a secret. The credentials in it can be read back.
- `Database`: the three-way choice of database URL and the SQLite `connect_args`.
- `SlackApi`: `str.split`/`str.join`, the mrkdwn formatting of `send_formatted_message`, the direct-message result of `send_message_to_slack_user`, `get_channel_id` and `upload_file`.
- `ThLogging`:
  - the INI rewrite (class `Config`);
  - the logger registry (class `Registry`);
  - handler removal and addition;
  - the uvicorn re-attachment, with its handler removal as written and the corrected configuration beside it;
  - the reset of named loggers.

External services are not modelled, only their answer, which is a parameter: the memory client, the embedding model, the vector store, OpenAI, Qdrant, AWS Secrets Manager, Slack's `WebClient` and `logging.config.fileConfig`. So are the clock (`now`), the environment (a map) and `check_memory_access_permissions` (a function `perm(row, app)`). `get_user_and_app` is an `identity` argument that is either the user and app or the text of the exception it raised. Each tool's error reply keeps the exact string the tool returns.

## Model

| member | source | states |
|---|---|---|
| TextMatch.PercentMatchesAll | src/openmemory/app/mcp_server.py:233 | the pattern `%` matches every string |
| TextMatch.PrefixPattern | src/openmemory/app/mcp_server.py:233 | for a wildcard-free `q`, `q%` matches exactly the strings starting with `q`, ignoring ASCII case (both directions) |
| TextMatch.LeadingPercent | src/openmemory/app/mcp_server.py:233 | `%p` matches `s` exactly when `p` matches some suffix of `s` |
| TextMatch.ContainsPatternIsSubstring | src/openmemory/app/mcp_server.py:233 | for a wildcard-free query, `ILIKE '%query%'` holds exactly when the query is a case-insensitive substring (both directions) |
| TextMatch.UnderscoreQueryMatchesAnyNonEmpty | src/openmemory/app/mcp_server.py:233 | the query is not escaped: the query `_` matches every non-empty content |
| TextMatch.PercentQueryMatchesAll | src/openmemory/app/mcp_server.py:500 | the query `%` matches every content, the empty one included |
| MemoryModel.ParseUuid | src/openmemory/app/mcp_server.py:102 | the model of `uuid.UUID(s)` accepts exactly the 8-4-4-4-12 hyphenated hex form (the other forms Python accepts are under "## Left out"); `str` of the result is canonical and is `s` lower-cased |
| MemoryModel.CanonicalParsesToItself | src/openmemory/app/mcp_server.py:209 | a canonical id parses back to itself |
| MemoryModel.CanonicalIsNonEmpty | src/openmemory/app/mcp_server.py:207 | a canonical id is truthy |
| MemoryModel.FindRow | src/openmemory/app/mcp_server.py:103 | `.filter(Memory.id == id).first()`: the first row with that id; `None` exactly when no row has it |
| McpEvents.DuplicateIdIsNotUnique | src/openmemory/app/mcp_server.py:141 | the commit's primary-key failure happens exactly when the keys are not unique (both directions) |
| McpEvents.ApplyChanges | src/openmemory/app/mcp_server.py:100-141 | the event loop on a copy of the rows computes `AddEffect`: the updated and inserted rows and the new history, or an exception |
| McpEvents.ApplyEventStep | src/openmemory/app/mcp_server.py:102-139 | one event with a well-formed id succeeds. Each pre-existing row takes that event's step, and the inserts and history grow by what the event calls for |
| McpEvents.ApplyEventsCharacterized | src/openmemory/app/mcp_server.py:100-139 | the loop succeeds exactly when every id parses. Then each pre-existing row has received the events naming it, in order, and the inserts and history are the reference lists |
| McpEvents.AddEffectCharacterized | src/openmemory/app/mcp_server.py:100-141 | one call commits exactly when every id parses and no key is inserted twice. It commits the updated pre-existing rows followed by the inserts, and the reference history |
| McpEvents.RowAfterKeepsIdentity | src/openmemory/app/mcp_server.py:115-117 | events change a row's state, content and `deleted_at` only: id, user, app, metadata and creation time stay |
| McpEvents.RowAfterUntouched | src/openmemory/app/mcp_server.py:103 | a row no event names is left exactly as it was |
| McpEvents.RowAfterDeleted | src/openmemory/app/mcp_server.py:128-131 | a row that ends deleted has a `deleted_at`, and was deleted before or met a DELETE naming it |
| McpEvents.DeleteEventsRecorded | src/openmemory/app/mcp_server.py:128-139 | every DELETE of a pre-existing id leaves an active-to-deleted history entry |
| McpEvents.InsertedRowsAreFresh | src/openmemory/app/mcp_server.py:105-114 | every inserted row comes from an ADD of an id not among the committed rows. It is active, and carries the caller's user and app and the event's content |
| McpEvents.HistoryTransitions | src/openmemory/app/mcp_server.py:119-139 | every history entry is written by the caller and records deleted-to-active or active-to-deleted |
| McpEvents.OneActivationPerAdd | src/openmemory/app/mcp_server.py:119-126 | there are exactly as many activation entries as ADD events |
| McpEvents.CommitKeepsKeysUnique | src/openmemory/app/mcp_server.py:141 | updated rows with their old keys plus new, distinct keys give unique keys |
| McpEvents.UpdatedRowDeletionRecorded | src/openmemory/app/mcp_server.py:128-139 | a pre-existing row that ends deleted has a `deleted_at` and a recorded deletion |
| McpEvents.AddEffectConsistent | src/openmemory/app/mcp_server.py:100-141 | a committed `add_memories` keeps the store's invariant |
| McpEvents.CommitConsistent | src/openmemory/app/mcp_server.py:141 | the reference rows and history keep the invariant whenever the inserts have unique keys |
| McpEvents.AddOfUnknownIdCreatesRow | src/openmemory/app/mcp_server.py:105-126 | an ADD for an unknown id appends one active row for the caller. Its one history entry says `old_state=deleted`, because `memory` is already bound to the new row |
| McpEvents.AddOfKnownIdReactivates | src/openmemory/app/mcp_server.py:115-126 | an ADD for an existing id makes it active with the new content and changes nothing else; one deleted-to-active entry |
| McpEvents.DeleteOfKnownIdSoftDeletes | src/openmemory/app/mcp_server.py:128-139 | a DELETE for an existing id sets `deleted` and `deleted_at = now`; one active-to-deleted entry |
| McpEvents.OtherEventsChangeNothing | src/openmemory/app/mcp_server.py:105-139 | an event of another kind, or a DELETE of an unknown id, commits no change |
| McpEvents.MalformedIdFailsTheCall | src/openmemory/app/mcp_server.py:102 | a malformed id anywhere in the response makes the whole call fail and commit nothing |
| McpEvents.DeleteAfterAddOfNewIdIsNoOp | src/openmemory/app/database.py:58 | without autoflush, a DELETE after the ADD of a new id in the same response finds no row and does nothing |
| McpEvents.DoubleAddOfNewIdFails | src/openmemory/app/mcp_server.py:103-114 | two ADDs of the same new id insert the key twice, so the commit fails |
| McpEvents.DeletedAll | src/openmemory/app/mcp_server.py:622-626 | soft-deleting the listed rows keeps the number of rows and every id |
| McpEvents.SoftDeleteAll | src/openmemory/app/mcp_server.py:621-644 | the loop soft-deletes exactly the listed rows, all at one `now`. Each id earns one active-to-deleted entry and one `delete_all` log, in order |
| McpEvents.DeletedAllSnoc | src/openmemory/app/mcp_server.py:623-626 | soft-deleting one more row is one more step of `DeletedAll` |
| McpEvents.DeleteAllConsistent | src/openmemory/app/mcp_server.py:621-647 | `delete_all` keeps the store's invariant |
| McpFilters.AccessibleIds | src/openmemory/app/mcp_server.py:172-173 | an id is accessible exactly when some row with it belongs to the user and passes the permission check (both directions); the state is not consulted |
| McpFilters.DeletedRowsStayAccessible | src/openmemory/app/mcp_server.py:610-611 | a deleted row that passes the check is still in the accessible set |
| McpFilters.AllowedSet | src/openmemory/app/mcp_server.py:188 | `None` exactly when there is no accessible id; otherwise the set of exactly those ids |
| McpFilters.SkipHitIsNotAdmitted | src/openmemory/app/mcp_server.py:194 | with an allowed set, a hit is skipped exactly when its id is not in it |
| McpFilters.FilterHits | src/openmemory/app/mcp_server.py:190-204 | with no allowed set, any hit raises (`in None`). Otherwise the loop fails exactly when an admitted hit has no payload, and returns the admitted hits' dicts in order |
| McpFilters.SearchLogs | src/openmemory/app/mcp_server.py:206-218 | fails exactly when a truthy id is malformed; otherwise one `search` log per result with a truthy id, in order, under its parsed id |
| McpFilters.SearchLogsOfCanonicalIds | src/openmemory/app/mcp_server.py:206-209 | when every result id is canonical, every result is logged under its own id |
| McpFilters.TextCandidates | src/openmemory/app/mcp_server.py:229-234 | at most 10 rows, each an active row of the user and app whose content matches `%query%` |
| McpFilters.TextSearch | src/openmemory/app/mcp_server.py:238-263 | one result with score 1.0 and one `search` log for each candidate that passes the check, in order |
| McpFilters.TextResultsSound | src/openmemory/app/mcp_server.py:229-263 | every fallback result is an active row of the user and app that matches and passes the check; at most 10 |
| McpFilters.ListFromResults | src/openmemory/app/mcp_server.py:318-334 | stops exactly when a record has a malformed id, always with the `ValueError`. Otherwise it keeps the records whose id is accessible, in order, each with one `list` log |
| McpFilters.FirstPlainFaultIsFirst | src/openmemory/app/mcp_server.py:335-337 | the loop's fault is that of a faulty record all earlier records pass. There is one exactly when some record lacks an `id` key or has a malformed id |
| McpFilters.MalformedBeforeMissingRaisesValueError | src/openmemory/app/mcp_server.py:335-337 | an illustration of `McpFilters.FirstPlainFaultIsFirst` on two records: a malformed id ahead of a missing `id` key raises the `ValueError` of the former |
| McpFilters.ListFromPlain | src/openmemory/app/mcp_server.py:335-351 | stops exactly when a record lacks an `id` key or has a malformed id, with the fault of the first such record (`KeyError` or `ValueError`). Otherwise it keeps the records whose row, of any user, passes the check, each with one `list` log |
| McpFilters.ListedKeepOrder | src/openmemory/app/mcp_server.py:319-333 | the listed records keep the vector store's order |
| McpFilters.AdmittedKeepOrder | src/openmemory/app/mcp_server.py:190-204 | the surviving hits keep the vector store's order |
| McpServer.ErrorText | src/openmemory/app/mcp_server.py:72-80 | a reply has an error string exactly when it is not a success, and every error string starts with `Error` |
| McpServer.VectorSearch | src/openmemory/app/mcp_server.py:170-221 | with no accessible id, it fails exactly when there is a hit, with the `TypeError` of `x not in None`, and otherwise answers no results. With accessible ids, it fails exactly when an admitted hit lacks a payload, with the `AttributeError` of `None.get`, and otherwise answers exactly the admitted hits, in order. Every result is accessible and has its one log |
| McpServer.FoundAdmitted | src/openmemory/app/mcp_server.py:194-197 | every result of the hit filter has an admitted id |
| McpServer.FoundCanonical | src/openmemory/app/mcp_server.py:173 | ids drawn from canonical rows are canonical |
| McpServer.MemoryDb.AddMemories | src/openmemory/app/mcp_server.py:68-148 | the argument, availability and paused-app errors, in order. With a change list, success exactly when `AddEffect` commits, and then rows and history are its result; on any failure nothing changes |
| McpServer.MemoryDb.SearchMemory | src/openmemory/app/mcp_server.py:152-279 | the argument errors, then vector search (exactly the admitted hits, in order, and on failure the same `TypeError` or `AttributeError` as `McpServer.VectorSearch`) or the text fallback, with their results and logs. Rows and history never change, and logs are written only on success |
| McpServer.MemoryDb.ListMemories | src/openmemory/app/mcp_server.py:283-357 | `slack-bot` gets `get_all`'s items unfiltered. Anyone else gets the accessible records, each logged. It fails when a list loop stops, with that loop's exception: always the `ValueError` for a results dict, and for a plain list the `KeyError` or `ValueError` of the first faulty record |
| McpServer.MemoryDb.DeleteAllMemories | src/openmemory/app/mcp_server.py:591-652 | on success, every accessible id goes to the vector store and is soft-deleted at one time, with one history entry and one log each; otherwise nothing changes |
| McpServer.TextSearchAfterDeleteAllIsEmpty | src/openmemory/app/mcp_server.py:229-234 | after `delete_all`, the text fallback finds nothing for the same user, app and check |
| McpServer.DeleteAllAgainTargetsSameRows | src/openmemory/app/mcp_server.py:610-611 | the accessible set ignores state, so a second `delete_all` targets the same rows |
| McpTools.SlackErrorText | src/openmemory/app/mcp_server.py:441-445 | an `error` field exactly for "not loaded" and for a failed search, the latter prefixed `Search failed: ` |
| McpTools.SlackFilters | src/openmemory/app/mcp_server.py:452-458 | always `user_id = slack-bot`; a channel filter exactly when a truthy channel is given |
| McpTools.SlackHitOf | src/openmemory/app/mcp_server.py:476-483 | `user` is the real name when it is truthy, otherwise the user name; channel and timestamp come from the metadata |
| McpTools.SlackVectorResults | src/openmemory/app/mcp_server.py:471-483 | one result per hit, in order, without a permission check |
| McpTools.FirstUser | src/openmemory/app/mcp_server.py:439 | the first user with that id; none exactly when there is no such user |
| McpTools.SlackTextResults | src/openmemory/app/mcp_server.py:511-521 | one result per fallback row, in order, with score 1.0 |
| McpTools.SearchSlackChannels | src/openmemory/app/mcp_server.py:419-539 | "not loaded" without a `slack-bot` user. Otherwise every vector hit is reported, or the matching fallback rows are; a raised search gives `Search failed` |
| McpTools.SlackRowsSound | src/openmemory/app/mcp_server.py:497-509 | every fallback row is an active `slack-bot` row in the asked channel whose content contains the query; at most `limit` |
| McpTools.SlackRowsComplete | src/openmemory/app/mcp_server.py:497-509 | below the limit, no matching row is missed, and table order is kept |
| McpTools.StatsDict | src/openmemory/sync_qdrant_from_postgres.py:221-226 | the stats have exactly the keys `total`, `synced`, `errors`, `dry_run` |
| McpTools.SyncVectorStoreAsWrittenAlwaysFails | src/openmemory/app/mcp_server.py:572-580 | as written, every completed sync is answered with the `KeyError` `'users_cleared'` |
| McpTools.SyncVectorStoreReports | src/openmemory/app/mcp_server.py:564-587 | corrected: success exactly when the sync completes, reporting its total, synced and error counts |
| SyncQdrant.Cutoff | src/openmemory/sync_qdrant_from_postgres.py:58-62 | a date filter exactly for `slack-bot`, of 7 days |
| SyncQdrant.GroupMemories | src/openmemory/sync_qdrant_from_postgres.py:196-215 | the grouping loop computes `GroupAll` |
| SyncQdrant.GroupAllStaysFailed | src/openmemory/sync_qdrant_from_postgres.py:209 | once the loop has raised, later memories do not matter |
| SyncQdrant.GroupAllDescribes | src/openmemory/sync_qdrant_from_postgres.py:196-215 | each group is its owner's kept memories in input order, and owners come in first-appearance order. `skipped_users` counts memories, not users; `filtered_count` counts the too-old ones |
| SyncQdrant.GroupAllFailsIff | src/openmemory/sync_qdrant_from_postgres.py:207-211 | the loop raises exactly when a memory of a date-filtered owner has no `created_at` |
| SyncQdrant.QdrantUrl | src/openmemory/sync_qdrant_from_postgres.py:92 | `QDRANT_URL` when set, otherwise `http://localhost:6333` |
| SyncQdrant.PointsOf | src/openmemory/sync_qdrant_from_postgres.py:129-142 | one point per memory–embedding pair: id, vector, owner, content and metadata (`{}` for none) |
| SyncQdrant.BuildPoints | src/openmemory/sync_qdrant_from_postgres.py:128-142 | the loop builds exactly `PointsOf` |
| SyncQdrant.BulkSyncUser | src/openmemory/sync_qdrant_from_postgres.py:65-157 | the steps of the bulk sync, as `BulkSync` |
| SyncQdrant.BulkSyncCounts | src/openmemory/sync_qdrant_from_postgres.py:83-88 | an empty list counts 0 and a dry run counts every memory, neither touching a service. A real count is at most the list's length, and the upserted points belong to the owner |
| SyncQdrant.SyncOwners | src/openmemory/sync_qdrant_from_postgres.py:229-240 | the per-owner loop computes the statistics and the upserted batches; a failing owner's group size goes to `errors` |
| SyncQdrant.StatsBounded | src/openmemory/sync_qdrant_from_postgres.py:221-240 | `synced + errors` never exceeds the grouped count; `total` and `dry_run` are carried through |
| SyncQdrant.DryRunStats | src/openmemory/sync_qdrant_from_postgres.py:86-88 | a dry run has no errors, counts every grouped memory as synced and upserts nothing |
| SyncQdrant.AllFailingStats | src/openmemory/sync_qdrant_from_postgres.py:237-240 | when every batch fails, every grouped memory is an error |
| SyncQdrant.Sync | src/openmemory/sync_qdrant_from_postgres.py:160-252 | fails exactly on the cutoff `TypeError`. Otherwise `total` is the number of active rows, the counters are as above, and a dry run syncs all and upserts nothing |
| SyncQdrant.UpsertStores | src/openmemory/sync_qdrant_from_postgres.py:146-150 | after an upsert every point's id is stored, and no other id is added |
| SyncQdrant.UpsertIsOverlay | src/openmemory/sync_qdrant_from_postgres.py:146-150 | an upsert overlays the batch on the index |
| SyncQdrant.UpsertIdempotent | src/openmemory/sync_qdrant_from_postgres.py:146-150 | upserting the same batch twice is upserting it once |
| UrlEncoding.Utf8Char | src/openmemory/app/secrets.py:69 | one to four bytes, one exactly for ASCII, continuation bytes in `80..BF` |
| UrlEncoding.Utf8RoundTrip | src/openmemory/app/secrets.py:69 | UTF-8 decoding gives back every encoded text |
| UrlEncoding.QuoteChar | src/openmemory/app/secrets.py:69 | unreserved characters stay, a space becomes `+`, anything else becomes the `%XX` triplets of its UTF-8 bytes |
| UrlEncoding.QuotePlus | src/openmemory/app/secrets.py:69 | the result holds only unreserved characters, `+` and `%` |
| UrlEncoding.QuotePlusHasNoDelimiters | src/openmemory/app/secrets.py:69-71 | the encoded password has no `:`, `@`, `/` or space |
| UrlEncoding.SpaceAndPlus | src/openmemory/app/secrets.py:69 | `" "` becomes `+` and `"+"` becomes `%2B` |
| UrlEncoding.UnreservedUnchanged | src/openmemory/app/secrets.py:69 | an all-unreserved text is left unchanged |
| UrlEncoding.QuotePlusWellEncoded | src/openmemory/app/secrets.py:69 | every `%` starts a triplet of hex digits |
| UrlEncoding.QuotePlusRoundTrip | src/openmemory/app/secrets.py:69 | `unquote_plus(quote_plus(s)) == s` for every text |
| Common.NatToStringValue | src/openmemory/app/secrets.py:71 | reading back the digits `str(n)` renders gives `n` |
| Common.IntToString | src/openmemory/app/secrets.py:71 | `str(i)` of the port: decimal digits that read back to the value, after a `-` when it is negative |
| Secrets.MissingKey | src/openmemory/app/secrets.py:62-66 | `None` exactly when every key is present; otherwise an absent key from the list |
| Secrets.BuildDatabaseUrl | src/openmemory/app/secrets.py:46-71 | the `KeyError` of the first missing key, then the `TypeError` of a non-text password. The URL is built exactly when neither happens, and it starts with `postgresql://` |
| Secrets.BuiltUrl | src/openmemory/app/secrets.py:71 | the URL is scheme, user, `:`, encoded password, `@`, host, `:`, port, `/`, database name |
| Secrets.ParseBuilt | src/openmemory/app/secrets.py:71 | a URL whose user has no `:` or `@` and whose password has no `@` splits back into its three parts |
| Secrets.CredentialsRecoverable | src/openmemory/app/secrets.py:62-71 | user, password (after decoding) and location can be read back from the built URL |
| Database.Region | src/openmemory/app/database.py:30 | `AWS_REGION` when truthy, else `AWS_DEFAULT_REGION` |
| Database.GetDatabaseUrl | src/openmemory/app/database.py:14-48 | `DATABASE_URL` exactly when it is truthy. The secret's URL exactly when the secrets path is configured and both the fetch and the build succeed. Otherwise the SQLite URL |
| Database.ExplicitUrlIgnoresSecrets | src/openmemory/app/database.py:24-27 | an explicit URL wins whatever the secrets manager answers |
| Database.NoSecretsWithoutConfiguration | src/openmemory/app/database.py:30-33 | without region and secret name the secrets manager is never consulted |
| Database.ConnectArgs | src/openmemory/app/database.py:54-57 | `check_same_thread=False` exactly for a `sqlite` URL |
| Database.ConnectArgsOfSource | src/openmemory/app/database.py:41-57 | the SQLite fallback gets `check_same_thread=False`, and a URL from the secrets manager gets no arguments |
| SlackApi.FindFrom | src/openmemory/app/slack_api.py:235-236 | the first occurrence of the separator from an index, or none at all |
| SlackApi.SplitPiecesLackSeparator | src/openmemory/app/slack_api.py:231 | no piece of `split` contains the separator |
| SlackApi.JoinSplit | src/openmemory/app/slack_api.py:231 | joining the pieces of `split` gives back the text |
| SlackApi.BracesMakeNoDifference | src/openmemory/app/slack_api.py:240-244 | a `{...}` content is formatted like any other content |
| SlackApi.PartPieces | src/openmemory/app/slack_api.py:234-249 | every part contributes at least two pieces, the last a newline |
| SlackApi.ConcatAppend | src/openmemory/app/slack_api.py:252 | `''.join` distributes over concatenation |
| SlackApi.FormatOnePart | src/openmemory/app/slack_api.py:235-249 | one iteration appends exactly the part's pieces |
| SlackApi.FormatMessage | src/openmemory/app/slack_api.py:230-252 | the loop builds exactly the formatted text |
| SlackApi.FormattedEndsWithNewline | src/openmemory/app/slack_api.py:231-252 | the formatted text is never empty and ends with a newline, also for the empty message |
| SlackApi.PlainMessage | src/openmemory/app/slack_api.py:245-249 | a message without `, ` or `: ` becomes one content block and a newline |
| SlackApi.HeaderFound | src/openmemory/app/slack_api.py:236 | the first `: ` is the one after a header that has none |
| SlackApi.HeaderMessage | src/openmemory/app/slack_api.py:235-249 | `header: content` becomes a header block, a content block and a newline |
| SlackApi.SendFormattedMessage | src/openmemory/app/slack_api.py:265-275 | posts the formatted blocks with the original message as the fallback text; `None` exactly when the post raises a `SlackApiError` |
| SlackApi.ThreadedText | src/openmemory/app/slack_api.py:108-113 | the message alone without a thread id; with one, the message, the thread line and the studio link |
| SlackApi.SendMessageToSlackUser | src/openmemory/app/slack_api.py:89-134 | `success` exactly when the channel opens and the post answers ok. Otherwise `failed` with an error: a `SlackApiError` from opening or posting, no channel opened, or a post that answered not ok; the channel id is reported exactly when the channel opened |
| SlackApi.FirstChannelIdIsFirst | src/openmemory/app/slack_api.py:147-150 | an id is found exactly when some channel has the name, and it is the id of the first such channel |
| SlackApi.GetChannelId | src/openmemory/app/slack_api.py:136-159 | the id of the first channel with the name; the default `C08VA2TNFSQ` when the list raises a `SlackApiError` or none matches |
| SlackApi.UploadChannel | src/openmemory/app/slack_api.py:178-179 | `hvh-flock-ops` exactly when no name is given; an empty name is kept |
| SlackApi.UploadFile | src/openmemory/app/slack_api.py:178-206 | uploads to the channel id `get_channel_id` gives for the chosen name. Title `Assistant Artifact`, comment or `Here is the file:`; the permalink, or `None` when the upload raises a `SlackApiError` |
| ThLogging.JsonRewriteSections | src/th_logging/th_logging.py:23-26 | the JSON step touches exactly the `logger_` sections and only their `handlers` |
| ThLogging.RewrittenSections | src/th_logging/th_logging.py:21-26 | after the rewrite the root carries the level; with JSON logging every logger section carries `console_json`; nothing else changes |
| ThLogging.RootLevelIsSet | src/th_logging/th_logging.py:21 | the root level is the argument |
| ThLogging.Config.Set | src/th_logging/th_logging.py:21 | `config[s][o] = v`: a `KeyError` exactly for a missing section, otherwise one option set |
| ThLogging.RewriteConfig | src/th_logging/th_logging.py:19-26 | a `KeyError` exactly without a root section, otherwise the rewritten sections |
| ThLogging.Registered | src/th_logging/th_logging.py:54-55 | `getLogger` keeps an existing logger and creates a missing one; nothing else changes |
| ThLogging.RegisteredIsStable | src/th_logging/th_logging.py:54-55 | asking again, or asking for another name in between, gives the same logger |
| ThLogging.Registry.GetLogger | src/th_logging/th_logging.py:54-55 | returns the logger registered under exactly that name |
| ThLogging.Registry.ApplyFileConfig | src/th_logging/th_logging.py:28 | the loggers the file describes replace those of the same name |
| ThLogging.Registry.SetHandlers | src/th_logging/th_logging.py:49 | only that logger's handlers change |
| ThLogging.Registry.SetPropagate | src/th_logging/th_logging.py:43 | only that logger's `propagate` changes |
| ThLogging.Registry.SetLevel | src/th_logging/th_logging.py:51 | only that logger's level changes |
| ThLogging.RemoveFirstAfter | src/th_logging/th_logging.py:40 | `removeHandler` takes away the first occurrence only |
| ThLogging.RemoveFirstShrinks | src/th_logging/th_logging.py:40 | `removeHandler` of an attached handler drops exactly one handler and attaches none |
| ThLogging.AddAllMembers | src/th_logging/th_logging.py:41-42 | adding keeps what was attached, in front, attaches each added handler once, and keeps handlers distinct |
| ThLogging.AddAllDistinct | src/th_logging/th_logging.py:41-42 | distinct handlers added to an empty logger come out as they went in |
| ThLogging.AsWrittenRemovalDetachesOnly | src/th_logging/th_logging.py:39-40 | the removal as written never attaches a handler |
| ThLogging.AsWrittenRemovalFrom | src/th_logging/th_logging.py:39-40 | from any point of the loop over distinct handlers, what ends attached is the handlers at odd positions |
| ThLogging.AsWrittenRemovalIsOdds | src/th_logging/th_logging.py:39-40 | as written, of distinct handlers only those at odd positions stay attached |
| ThLogging.RemoveHandlersAsWritten | src/th_logging/th_logging.py:39-40 | the loop as written computes the as-written removal; of distinct handlers only those at odd positions stay |
| ThLogging.ClearHandlers | src/th_logging/th_logging.py:39-40 | corrected: iterating a snapshot detaches every handler |
| ThLogging.AddHandlers | src/th_logging/th_logging.py:41-42 | the loop attaches the root handlers in turn |
| ThLogging.Detached | src/th_logging/th_logging.py:39-40 | what stays is some of what was attached; under the intended removal nothing stays |
| ThLogging.ReattachFacts | src/th_logging/th_logging.py:38-43 | one pass registers the logger, gives it what the removal leaves followed by the root's handlers, turns off propagation, and changes no other logger |
| ThLogging.ReattachAllKeys | src/th_logging/th_logging.py:38-43 | the loop registers exactly the named loggers |
| ThLogging.ReattachAllUnchanged | src/th_logging/th_logging.py:38-43 | the loop changes no logger it does not name |
| ThLogging.ReattachAllLevel | src/th_logging/th_logging.py:38-43 | every named logger keeps its level |
| ThLogging.ReattachAllAttaches | src/th_logging/th_logging.py:38-43 | every named logger ends with each root handler attached and does not propagate, whichever removal runs |
| ThLogging.ReattachAllEffectAt | src/th_logging/th_logging.py:38-43 | the same for one logger: named once, or under the intended removal, it ends with what the removal leaves of its own handlers, then the root's |
| ThLogging.ReattachAllEffect | src/th_logging/th_logging.py:38-43 | a logger named once, or any named logger under the intended removal, ends with what the removal leaves of its own handlers, then the root's, not propagating |
| ThLogging.ReattachUvicorn | src/th_logging/th_logging.py:38-43 | the loop, with its removal as written, computes `ReattachAll` with `AsWritten` |
| ThLogging.ResetAll | src/th_logging/th_logging.py:47-51 | the reset leaves the root's handlers and level as they were |
| ThLogging.ResetAllEffect | src/th_logging/th_logging.py:47-51 | each named logger ends with the root's handlers and level, not propagating; no other logger changes |
| ThLogging.ResetLoggers | src/th_logging/th_logging.py:47-51 | the loop computes `ResetAll` |
| ThLogging.ConfigureLogging | src/th_logging/th_logging.py:8-51 | a `KeyError` exactly without a root section, with nothing changed. Otherwise the rewritten file is loaded, uvicorn's loggers are re-attached with the removal as written, and the named loggers are reset |
| ThLogging.ResetLoggersFollowRoot | src/th_logging/th_logging.py:47-51 | every logger named for reset ends with the root's final handlers and level, whichever removal runs |
| ThLogging.UvicornFollowsRoot | src/th_logging/th_logging.py:33-45 | corrected configuration: with uvicorn present, its loggers end with exactly the root's handlers and do not propagate |
| ThLogging.UvicornAttachesRoot | src/th_logging/th_logging.py:33-45 | as written: with uvicorn present, its loggers end with every root handler attached and do not propagate |
| ThLogging.UvicornKeepsOddHandlers | src/th_logging/th_logging.py:33-45 | as written: a uvicorn logger named once and not reset keeps its own handlers at odd positions, ahead of the root's |
| ThLogging.MissingUvicornChangesOnlyReset | src/th_logging/th_logging.py:44-45 | without uvicorn only the loggers named for reset change |
| ThLogging.AsWrittenKeepsStaleHandler | src/th_logging/th_logging.py:38-42 | as written, `uvicorn.access` with handlers `[a, b]` and a root with `[r]` ends with `[b, r]` |
| ThLogging.CorrectedDropsStaleHandler | src/th_logging/th_logging.py:38-42 | in the corrected configuration the same logger ends with `[r]` |

## Left out

- The SSE transport and the FastAPI routes (`handle_sse`, `handle_post_message`, `setup_mcp_server`) are HTTP plumbing. The context variables they set become the `uid` and `clientName` arguments.
- `get_memory_client_safe`, the memory client, the embedding model and the vector store are external services. They are parameters: their outcome (unavailable, raises, or the answer), with the request each tool sends them recorded.
- `check_memory_access_permissions` and `get_user_and_app` live outside the core. They are a permission function and an `identity` argument.
- `load_slack_channel` is left out. It is a loader over Slack's API and the memory client, not named as core.
- `SlackToolbox.__init__` (reading `SLACK_TOKEN`) and `get_slack_user_id_by_email` are left out. They only wrap Slack's API.
- `get_secret` is a call to AWS Secrets Manager. `GetDatabaseUrl` takes its outcome as a parameter.
- The `main` of `sync_qdrant_from_postgres.py` is command-line parsing and printing.
- Scores are opaque `real`s, and `json.dumps` output is a datatype rather than text. Logging calls and `print` are dropped.
- `datetime.now` and `datetime.utcnow` are a `now` parameter, one per call. The source reads the clock again for each DELETE event in `add_memories` (src/openmemory/app/mcp_server.py:131) and for each date-filtered memory in `sync_qdrant` (sync_qdrant_from_postgres.py:208). The model gives every read in one call the same time. Times are integers.
- `MemoryModel.ParseUuid`: only the hyphenated 8-4-4-4-12 form is modelled. `uuid.UUID` drops a `urn:` and a `uuid:` prefix, strips braces and deletes every `-`, then accepts any 32 characters that `int(…, 16)` accepts. So it also accepts hyphens at any positions, no hyphens at all, surrounding whitespace, a leading `+`, a `0x` prefix and `_` between digits. The model rejects all of these.
- `McpServer.MemoryDb.ListMemories`: a `get_all` dict without a `results` key is not modelled. In the source, `slack-bot` gets `json.dumps` of the whole dict (src/openmemory/app/mcp_server.py:308-311). Any other caller iterates the dict's keys, and `memory['id']` on a `str` raises `TypeError` (336-337).
- The relational store's order is modelled as insertion order. SQL without `ORDER BY` promises none.
- `McpServer.FailureText`: the driver's wording of a primary-key violation is not modelled. It is a fixed text.
- `ThLogging.RemoveHandlersAsWritten`: its closed form, the handlers at odd positions, is stated for distinct handlers only. `logging` never attaches a handler twice. For other lists the result is still given exactly by `AsWrittenRemoval`.
- Reading the INI file, its `DEFAULT` section and `fileConfig`'s `disable_existing_loggers` are left out. The loggers the file describes are a parameter.
- `logger.handlers = root_logger.handlers` shares one list object. The model copies the value, so a later change to the root's list is not seen through the alias.
- `logging.getLogger("root")` aliasing the root logger, and a non-string level raising `TypeError`, are not modelled.
- `TextMatch.ILike`: models `ILIKE` as the SQLite backend runs it. SQLAlchemy renders it there as `lower(x) LIKE lower(y)`: only ASCII letters are folded, and there is no escape character. On PostgreSQL, `ILIKE` also folds non-ASCII letters (`ä` matches `Ä`) and treats `\` as an escape (`a\%` matches only `a%`). So the "case-insensitive" of `TextMatch.ContainsPatternIsSubstring` means ASCII case, and queries with `\` or non-ASCII letters are modelled for SQLite only.
- `McpEvents.ChangeEvent`: every entry of the memory client's `results` carries `event` and `memory`. An entry without one raises `KeyError` (src/openmemory/app/mcp_server.py:105, 111), and that path is not modelled.
- `McpTools.SlackHitOfVector`: a payload without `metadata` is read as `{}`. A payload whose `metadata` is `null` raises `AttributeError` (src/openmemory/app/mcp_server.py:474-478), so the tool answers `Search failed: ...`. That path is not modelled.
- `McpFilters.ListFromResults`: a record's `id` of `None` stands for a missing key. A record holding `'id': None` raises `TypeError` from `uuid.UUID` (src/openmemory/app/mcp_server.py:321), which is not modelled.
- `McpTools.SearchSlackChannels`: `limit` is a natural number. A negative `limit` is passed to the vector store or to SQL `LIMIT` unchanged, and what those do with it is not modelled.
- `SlackApi.SendFormattedMessage`, `SlackApi.SendMessageToSlackUser`, `SlackApi.GetChannelId`, `SlackApi.UploadFile`: the Slack call's failure stands for a `SlackApiError`, the only exception these methods catch (src/openmemory/app/slack_api.py:129, 156, 198, 273). Any other exception propagates out of the method, for example a network error from the client or a `KeyError` from `result["channels"]` (147). That path is not modelled.
- `McpTools.SyncVectorStore`, `McpTools.SyncVectorStoreAsWritten`: a sync that does not complete answers the cutoff `TypeError`'s text. The source answers `str(e)` for any exception caught at src/openmemory/app/mcp_server.py:582, such as a failed import (560) or a database error inside `sync_qdrant`. Those texts are not modelled.
- `Secrets.SecretValue`: a value of the secret is a string, an integer, a boolean or `null`. JSON floats, lists and objects are not modelled.
- `MemoryModel.Metadata`: metadata maps strings to strings. Non-string values (numbers, lists, nested objects) are not modelled.

## Findings

| source | as written | input that shows it | evidently intended | confidence | as-written member | corrected member |
|---|---|---|---|---|---|---|
| src/openmemory/app/mcp_server.py:576 | `sync_vector_store` reads `result["users_cleared"]`, but `sync_qdrant` returns only `total`, `synced`, `errors`, `dry_run` | any sync that completes | report the statistics the dict has | not executed | McpTools.SyncVectorStoreAsWrittenAlwaysFails | McpTools.SyncVectorStoreReports |
| src/th_logging/th_logging.py:39-40 | `removeHandler` inside `for handler in logger.handlers` shifts the list under the iteration, so every other handler stays | `uvicorn.access` with handlers `[a, b]` and a root with `[r]` ends with `[b, r]` | detach every handler before attaching the root's, leaving `[r]` | not executed | ThLogging.RemoveHandlersAsWritten | ThLogging.ClearHandlers |
