/**
 * The resynchronisation batch of the vector index: active memories are
 * grouped by whitelisted owner, the recent-only cutoff is applied per owner,
 * and each owner's group is embedded and upserted in one batch.
 *
 * Qdrant and OpenAI are outside the model: `Services` says what they answer.
 */
module SyncQdrant {
  import opened Common
  import opened MemoryModel

  /** `USERS_TO_SYNC`. */
  const UsersToSync: set<string> := {"slack-bot", "buy-box-rules", "weather"}

  /** One day in microseconds. */
  const Day: int := 86_400_000_000

  /** `DATE_FILTERS`: a recency window per owner, `None` for no cutoff. */
  const DateFilters: map<string, Option<int>> :=
    map["slack-bot" := Some(7 * Day), "buy-box-rules" := None, "weather" := None]

  const CollectionName: string := "openmemory"
  const VectorSize: nat := 1536
  const EmbeddingModel: string := "text-embedding-3-small"
  const DefaultQdrantUrl: string := "http://localhost:6333"

  /** `DATE_FILTERS.get(owner)` when it is truthy (a zero timedelta is falsy). */
  function Cutoff(owner: string): (r: Option<int>)
    ensures r.Some? <==> owner == "slack-bot"
    ensures r.Some? ==> r.value == 7 * Day
  {
    var d := Get(DateFilters, owner);
    if d.Some? && d.value.Some? && d.value.value != 0 then d.value else None
  }

  /** The grouped memories, the owners in first-appearance order, and the two counters of the loop. */
  datatype Grouping = Grouping(order: seq<string>, groups: map<string, seq<Memory>>, skippedUsers: nat, filteredCount: nat)

  /** `memory.user.user_id`, from the `users` table (internal id to external user id). */
  function Owner(m: Memory, users: map<UserRef, string>): Option<string>
  {
    Get(users, m.userId)
  }

  predicate Whitelisted(m: Memory, users: map<UserRef, string>)
  {
    m.userId in users && users[m.userId] in UsersToSync
  }

  /** Dropped by the recency cutoff: `created_at < now - delta`. */
  predicate TooOld(m: Memory, users: map<UserRef, string>, now: Time)
  {
    Whitelisted(m, users) && Cutoff(users[m.userId]).Some? &&
    m.createdAt.Some? && m.createdAt.value < now - Cutoff(users[m.userId]).value
  }

  /** Compared with the cutoff while having no `created_at`: `None < datetime` raises `TypeError`. */
  predicate RaisesOnCutoff(m: Memory, users: map<UserRef, string>)
  {
    Whitelisted(m, users) && Cutoff(users[m.userId]).Some? && m.createdAt.None?
  }

  /** Kept for syncing. */
  predicate Kept(m: Memory, users: map<UserRef, string>, now: Time)
  {
    Whitelisted(m, users) && !TooOld(m, users, now) && !RaisesOnCutoff(m, users)
  }

  function KeptFor(owner: string, users: map<UserRef, string>, now: Time): Memory -> bool
  {
    (m: Memory) => Kept(m, users, now) && users[m.userId] == owner
  }

  function NotWhitelistedBy(users: map<UserRef, string>): Memory -> bool
  {
    (m: Memory) => m.userId in users && users[m.userId] !in UsersToSync
  }

  function TooOldBy(users: map<UserRef, string>, now: Time): Memory -> bool
  {
    (m: Memory) => TooOld(m, users, now)
  }

  /** Append `m` to its owner's group, opening the group (and its place in the order) on first sight. */
  function Append(g: Grouping, owner: string, m: Memory): Grouping
  {
    if owner in g.groups then g.(groups := g.groups[owner := g.groups[owner] + [m]])
    else g.(order := g.order + [owner], groups := g.groups[owner := [m]])
  }

  /** One iteration of the grouping loop; `None` is the `TypeError`. */
  function GroupStep(g: Grouping, m: Memory, users: map<UserRef, string>, now: Time): Option<Grouping>
  {
    if m.userId !in users then Some(g)
    else
      var owner := users[m.userId];
      if owner !in UsersToSync then
        // counts a memory, not an owner: a skipped owner never enters the groups
        Some(if owner !in g.groups then g.(skippedUsers := g.skippedUsers + 1) else g)
      else if Cutoff(owner).Some? then
        if m.createdAt.None? then None
        else if m.createdAt.value < now - Cutoff(owner).value then Some(g.(filteredCount := g.filteredCount + 1))
        else Some(Append(g, owner, m))
      else Some(Append(g, owner, m))
  }

  function GroupAll(ms: seq<Memory>, users: map<UserRef, string>, now: Time): Option<Grouping>
    decreases |ms|
  {
    if |ms| == 0 then Some(Grouping([], map[], 0, 0))
    else
      match GroupAll(ms[..|ms| - 1], users, now)
      case None => None
      case Some(g) => GroupStep(g, ms[|ms| - 1], users, now)
  }

  /** The grouping loop of `sync_qdrant`. */
  method GroupMemories(ms: seq<Memory>, users: map<UserRef, string>, now: Time) returns (r: Option<Grouping>)
    ensures r == GroupAll(ms, users, now)
  {
    var g := Grouping([], map[], 0, 0);
    var i := 0;
    while i < |ms|
      invariant 0 <= i <= |ms|
      invariant GroupAll(ms[..i], users, now) == Some(g)
    {
      var m := ms[i];
      assert ms[..i + 1][..i] == ms[..i] && ms[..i + 1][i] == m;
      ghost var next := GroupStep(g, m, users, now);
      assert GroupAll(ms[..i + 1], users, now) == next;
      if m.userId in users {
        var owner := users[m.userId];
        if owner !in UsersToSync {
          if owner !in g.groups {
            g := g.(skippedUsers := g.skippedUsers + 1);
          }
        } else {
          var cutoff := Cutoff(owner);
          if cutoff.Some? && m.createdAt.None? {
            assert GroupAll(ms[..i + 1], users, now).None?;
            assert ms == ms[..i + 1] + ms[i + 1..];
            GroupAllStaysFailed(ms[..i + 1], ms[i + 1..], users, now);
            return None;
          }
          if cutoff.Some? && m.createdAt.value < now - cutoff.value {
            g := g.(filteredCount := g.filteredCount + 1);
          } else {
            if owner in g.groups {
              g := g.(groups := g.groups[owner := g.groups[owner] + [m]]);
            } else {
              g := g.(order := g.order + [owner], groups := g.groups[owner := [m]]);
            }
          }
        }
      }
      assert next == Some(g);
      i := i + 1;
    }
    assert ms[..i] == ms;
    r := Some(g);
  }

  /** Once the loop has raised, no later memory helps. */
  lemma {:induction false} GroupAllStaysFailed(a: seq<Memory>, b: seq<Memory>, users: map<UserRef, string>, now: Time)
    requires GroupAll(a, users, now).None?
    ensures GroupAll(a + b, users, now).None?
    decreases |b|
  {
    if |b| == 0 {
      assert a + b == a;
    } else {
      var c := a + b[..|b| - 1];
      GroupAllStaysFailed(a, b[..|b| - 1], users, now);
      assert (a + b)[..|a + b| - 1] == c;
    }
  }

  // ---------------------------------------------------------------------
  // What the grouping computes
  // ---------------------------------------------------------------------

  /** The owners of the kept memories, each once, in order of first appearance. */
  function FirstSeen(owners: seq<string>): seq<string>
    decreases |owners|
  {
    if |owners| == 0 then []
    else
      var p := FirstSeen(owners[..|owners| - 1]);
      if owners[|owners| - 1] in p then p else p + [owners[|owners| - 1]]
  }

  function KeptOwners(ms: seq<Memory>, users: map<UserRef, string>, now: Time): seq<string>
    decreases |ms|
  {
    if |ms| == 0 then []
    else
      var m := ms[|ms| - 1];
      KeptOwners(ms[..|ms| - 1], users, now) + if Kept(m, users, now) then [users[m.userId]] else []
  }

  /** The sum of the group sizes, over the owners in order. */
  function SumSizes(order: seq<string>, groups: map<string, seq<Memory>>): nat
    decreases |order|
  {
    if |order| == 0 then 0
    else SumSizes(order[..|order| - 1], groups) + (if order[|order| - 1] in groups then |groups[order[|order| - 1]]| else 0)
  }

  ghost predicate NoDuplicates(s: seq<string>)
  {
    forall i, j :: 0 <= i < j < |s| ==> s[i] != s[j]
  }

  /** Each whitelisted owner's group is that owner's kept memories in input order; the order names exactly the groups, once each. */
  ghost predicate GroupsDescribed(g: Grouping, ms: seq<Memory>, users: map<UserRef, string>, now: Time)
  {
    (forall u :: u in g.groups <==> u in g.order) &&
    (forall u :: u in g.groups ==> u in UsersToSync && g.groups[u] == Filter(ms, KeptFor(u, users, now)) && g.groups[u] != []) &&
    (forall u :: u !in g.groups ==> Filter(ms, KeptFor(u, users, now)) == []) &&
    NoDuplicates(g.order)
  }

  /**
   * The grouping, described independently of the loop: the groups as above,
   * the owners by first appearance, `skipped_users` counting the memories
   * (not the owners) that are not whitelisted, `filtered_count` the memories
   * older than the cutoff, and no memory counted twice.
   */
  ghost predicate Describes(g: Grouping, ms: seq<Memory>, users: map<UserRef, string>, now: Time)
  {
    GroupsDescribed(g, ms, users, now) &&
    g.order == FirstSeen(KeptOwners(ms, users, now)) &&
    g.skippedUsers == |Filter(ms, NotWhitelistedBy(users))| &&
    g.filteredCount == |Filter(ms, TooOldBy(users, now))| &&
    SumSizes(g.order, g.groups) + g.skippedUsers + g.filteredCount <= |ms|
  }

  lemma SumSizesUnchanged(order: seq<string>, groups: map<string, seq<Memory>>, u: string, v: seq<Memory>)
    requires u !in order
    ensures SumSizes(order, groups[u := v]) == SumSizes(order, groups)
    decreases |order|
  {
    if |order| > 0 {
      SumSizesUnchanged(order[..|order| - 1], groups, u, v);
    }
  }

  lemma {:induction false} SumSizesGrow(order: seq<string>, groups: map<string, seq<Memory>>, u: string, m: Memory)
    requires u in order && u in groups && NoDuplicates(order)
    ensures SumSizes(order, groups[u := groups[u] + [m]]) == SumSizes(order, groups) + 1
    decreases |order|
  {
    var init := order[..|order| - 1];
    var last := order[|order| - 1];
    if last == u {
      assert u !in init;
      SumSizesUnchanged(init, groups, u, groups[u] + [m]);
    } else {
      assert u in init by {
        var i :| 0 <= i < |order| && order[i] == u;
        assert i < |order| - 1 && init[i] == u;
      }
      assert NoDuplicates(init) by {
        forall i, j | 0 <= i < j < |init| ensures init[i] != init[j] {
          assert order[i] == init[i] && order[j] == init[j];
        }
      }
      SumSizesGrow(init, groups, u, m);
    }
  }

  lemma FirstSeenMembers(owners: seq<string>)
    ensures forall u :: u in FirstSeen(owners) <==> u in owners
    decreases |owners|
  {
    if |owners| > 0 {
      var init := owners[..|owners| - 1];
      FirstSeenMembers(init);
      assert owners == init + [owners[|owners| - 1]];
    }
  }

  lemma KeptOwnersMembers(ms: seq<Memory>, users: map<UserRef, string>, now: Time)
    ensures forall u :: u in KeptOwners(ms, users, now) <==> Filter(ms, KeptFor(u, users, now)) != []
    decreases |ms|
  {
    if |ms| > 0 {
      var init := ms[..|ms| - 1];
      var m := ms[|ms| - 1];
      KeptOwnersMembers(init, users, now);
      assert ms == init + [m];
      forall u ensures Filter(ms, KeptFor(u, users, now)) == Filter(init, KeptFor(u, users, now)) + (if KeptFor(u, users, now)(m) then [m] else []) {
        FilterSnoc(init, m, KeptFor(u, users, now));
      }
    }
  }

  /** Each owner's selection grows by the new memory exactly when it is kept for that owner. */
  lemma KeptForSnoc(init: seq<Memory>, m: Memory, users: map<UserRef, string>, now: Time)
    ensures forall u ::
      (Filter(init + [m], KeptFor(u, users, now)) ==
       Filter(init, KeptFor(u, users, now)) + (if KeptFor(u, users, now)(m) then [m] else []))
  {
    forall u ensures Filter(init + [m], KeptFor(u, users, now)) ==
      Filter(init, KeptFor(u, users, now)) + (if KeptFor(u, users, now)(m) then [m] else []) {
      FilterSnoc(init, m, KeptFor(u, users, now));
    }
  }

  lemma NoDuplicatesSnoc(order: seq<string>, u: string)
    requires NoDuplicates(order) && u !in order
    ensures NoDuplicates(order + [u])
  {
    var o := order + [u];
    forall i, j | 0 <= i < j < |o| ensures o[i] != o[j] {
      if j == |order| {
        assert o[i] == order[i];
      } else {
        assert o[i] == order[i] && o[j] == order[j];
      }
    }
  }

  /** One step keeps the groups described. */
  lemma StepGroups(g0: Grouping, init: seq<Memory>, m: Memory, users: map<UserRef, string>, now: Time)
    requires GroupsDescribed(g0, init, users, now)
    requires GroupStep(g0, m, users, now).Some?
    ensures GroupsDescribed(GroupStep(g0, m, users, now).value, init + [m], users, now)
  {
    GroupStepOrder(g0, m, users, now);
    if Kept(m, users, now) {
      StepGroupsKept(g0, init, m, users, now);
    } else {
      StepGroupsSkipped(g0, GroupStep(g0, m, users, now).value, init, m, users, now);
    }
  }

  lemma StepGroupsKept(g0: Grouping, init: seq<Memory>, m: Memory, users: map<UserRef, string>, now: Time)
    requires GroupsDescribed(g0, init, users, now) && Kept(m, users, now)
    ensures GroupsDescribed(Append(g0, users[m.userId], m), init + [m], users, now)
  {
    var owner := users[m.userId];
    var g := Append(g0, owner, m);
    forall u | u in g.groups
      ensures u in UsersToSync && g.groups[u] == Filter(init + [m], KeptFor(u, users, now)) && g.groups[u] != []
    {
      FilterSnoc(init, m, KeptFor(u, users, now));
    }
    forall u | u !in g.groups ensures Filter(init + [m], KeptFor(u, users, now)) == [] {
      FilterSnoc(init, m, KeptFor(u, users, now));
    }
    if owner !in g0.groups {
      NoDuplicatesSnoc(g0.order, owner);
    }
  }

  lemma StepGroupsSkipped(g0: Grouping, g: Grouping, init: seq<Memory>, m: Memory, users: map<UserRef, string>, now: Time)
    requires GroupsDescribed(g0, init, users, now) && !Kept(m, users, now)
    requires g.order == g0.order && g.groups == g0.groups
    ensures GroupsDescribed(g, init + [m], users, now)
  {
    forall u ensures Filter(init + [m], KeptFor(u, users, now)) == Filter(init, KeptFor(u, users, now)) {
      FilterSnoc(init, m, KeptFor(u, users, now));
    }
  }

  /** An owner has a group exactly when it is among the kept owners so far. */
  lemma OwnerSeen(g0: Grouping, init: seq<Memory>, u: string, users: map<UserRef, string>, now: Time)
    requires GroupsDescribed(g0, init, users, now)
    ensures u in g0.groups <==> u in FirstSeen(KeptOwners(init, users, now))
  {
    FirstSeenMembers(KeptOwners(init, users, now));
    KeptOwnersMembers(init, users, now);
  }

  /** A kept memory is appended to its owner's group; any other leaves the order alone. */
  lemma GroupStepOrder(g0: Grouping, m: Memory, users: map<UserRef, string>, now: Time)
    requires GroupStep(g0, m, users, now).Some?
    ensures Kept(m, users, now) ==> GroupStep(g0, m, users, now).value == Append(g0, users[m.userId], m)
    ensures !Kept(m, users, now) ==>
      GroupStep(g0, m, users, now).value.order == g0.order && GroupStep(g0, m, users, now).value.groups == g0.groups
  {
  }

  lemma KeptOwnersSnoc(init: seq<Memory>, m: Memory, users: map<UserRef, string>, now: Time)
    ensures KeptOwners(init + [m], users, now) ==
      KeptOwners(init, users, now) + if Kept(m, users, now) then [users[m.userId]] else []
  {
    var ms := init + [m];
    assert ms[..|ms| - 1] == init && ms[|ms| - 1] == m;
  }

  lemma FirstSeenSnoc(owners: seq<string>, u: string)
    ensures FirstSeen(owners + [u]) == if u in FirstSeen(owners) then FirstSeen(owners) else FirstSeen(owners) + [u]
  {
    var o := owners + [u];
    assert o[..|o| - 1] == owners;
  }

  /** One step keeps the order the first-appearance order. */
  lemma StepOrder(g0: Grouping, init: seq<Memory>, m: Memory, users: map<UserRef, string>, now: Time)
    requires GroupsDescribed(g0, init, users, now)
    requires g0.order == FirstSeen(KeptOwners(init, users, now))
    requires GroupStep(g0, m, users, now).Some?
    ensures GroupStep(g0, m, users, now).value.order == FirstSeen(KeptOwners(init + [m], users, now))
  {
    var ko := KeptOwners(init, users, now);
    KeptOwnersSnoc(init, m, users, now);
    GroupStepOrder(g0, m, users, now);
    if Kept(m, users, now) {
      var owner := users[m.userId];
      OwnerSeen(g0, init, owner, users, now);
      FirstSeenSnoc(ko, owner);
    } else {
      assert ko + [] == ko;
    }
  }

  /** Each memory is kept, skipped as not whitelisted, dropped as too old, or has no known owner. */
  lemma StepCountersMove(g0: Grouping, m: Memory, users: map<UserRef, string>, now: Time)
    requires forall u :: u in g0.groups ==> u in UsersToSync
    requires GroupStep(g0, m, users, now).Some?
    ensures var g := GroupStep(g0, m, users, now).value;
      g.skippedUsers == g0.skippedUsers + (if NotWhitelistedBy(users)(m) then 1 else 0) &&
      g.filteredCount == g0.filteredCount + (if TooOldBy(users, now)(m) then 1 else 0) &&
      (if Kept(m, users, now) then 1 else 0) + (if NotWhitelistedBy(users)(m) then 1 else 0) +
        (if TooOldBy(users, now)(m) then 1 else 0) <= 1
  {
  }

  /** The two counters count the memories skipped as not whitelisted and as too old. */
  lemma StepSkipCounts(g0: Grouping, init: seq<Memory>, m: Memory, users: map<UserRef, string>, now: Time)
    requires forall u :: u in g0.groups ==> u in UsersToSync
    requires g0.skippedUsers == |Filter(init, NotWhitelistedBy(users))|
    requires g0.filteredCount == |Filter(init, TooOldBy(users, now))|
    requires GroupStep(g0, m, users, now).Some?
    ensures var g := GroupStep(g0, m, users, now).value;
      g.skippedUsers == |Filter(init + [m], NotWhitelistedBy(users))| &&
      g.filteredCount == |Filter(init + [m], TooOldBy(users, now))|
  {
    FilterSnoc(init, m, NotWhitelistedBy(users));
    FilterSnoc(init, m, TooOldBy(users, now));
    StepCountersMove(g0, m, users, now);
  }

  /** A kept memory adds one to the group sizes; any other adds nothing. */
  lemma StepSizes(g0: Grouping, m: Memory, users: map<UserRef, string>, now: Time)
    requires forall u :: u in g0.groups <==> u in g0.order
    requires NoDuplicates(g0.order)
    requires GroupStep(g0, m, users, now).Some?
    ensures var g := GroupStep(g0, m, users, now).value;
      SumSizes(g.order, g.groups) == SumSizes(g0.order, g0.groups) + (if Kept(m, users, now) then 1 else 0)
  {
    GroupStepOrder(g0, m, users, now);
    if Kept(m, users, now) {
      var owner := users[m.userId];
      if owner in g0.groups {
        SumSizesGrow(g0.order, g0.groups, owner, m);
      } else {
        SumSizesUnchanged(g0.order, g0.groups, owner, [m]);
        var o := g0.order + [owner];
        assert o[..|o| - 1] == g0.order;
      }
    }
  }

  /** One step keeps the two counters and the size bound. */
  lemma StepCounters(g0: Grouping, init: seq<Memory>, m: Memory, users: map<UserRef, string>, now: Time)
    requires GroupsDescribed(g0, init, users, now)
    requires g0.skippedUsers == |Filter(init, NotWhitelistedBy(users))|
    requires g0.filteredCount == |Filter(init, TooOldBy(users, now))|
    requires SumSizes(g0.order, g0.groups) + g0.skippedUsers + g0.filteredCount <= |init|
    requires GroupStep(g0, m, users, now).Some?
    ensures var g := GroupStep(g0, m, users, now).value;
      g.skippedUsers == |Filter(init + [m], NotWhitelistedBy(users))| &&
      g.filteredCount == |Filter(init + [m], TooOldBy(users, now))| &&
      SumSizes(g.order, g.groups) + g.skippedUsers + g.filteredCount <= |init + [m]|
  {
    StepSkipCounts(g0, init, m, users, now);
    StepSizes(g0, m, users, now);
    StepCountersMove(g0, m, users, now);
  }

  /** The loop computes the grouping `Describes` states. */
  lemma {:induction false} GroupAllDescribes(ms: seq<Memory>, users: map<UserRef, string>, now: Time)
    requires GroupAll(ms, users, now).Some?
    ensures Describes(GroupAll(ms, users, now).value, ms, users, now)
    decreases |ms|
  {
    if |ms| > 0 {
      var init := ms[..|ms| - 1];
      var m := ms[|ms| - 1];
      assert ms == init + [m];
      var g0 := GroupAll(init, users, now).value;
      GroupAllDescribes(init, users, now);
      StepGroups(g0, init, m, users, now);
      StepOrder(g0, init, m, users, now);
      StepCounters(g0, init, m, users, now);
    }
  }

  /** The loop raises exactly when some whitelisted memory with a cutoff has no `created_at`. */
  lemma {:induction false} GroupAllFailsIff(ms: seq<Memory>, users: map<UserRef, string>, now: Time)
    ensures GroupAll(ms, users, now).None? <==> exists k :: 0 <= k < |ms| && RaisesOnCutoff(ms[k], users)
    decreases |ms|
  {
    if |ms| > 0 {
      var init := ms[..|ms| - 1];
      GroupAllFailsIff(init, users, now);
      if exists k :: 0 <= k < |init| && RaisesOnCutoff(init[k], users) {
        var k :| 0 <= k < |init| && RaisesOnCutoff(init[k], users);
        assert ms[k] == init[k];
      }
      if exists k :: 0 <= k < |ms| && RaisesOnCutoff(ms[k], users) {
        var k :| 0 <= k < |ms| && RaisesOnCutoff(ms[k], users);
        if k < |ms| - 1 {
          assert init[k] == ms[k];
        }
      }
    }
  }

  // ---------------------------------------------------------------------
  // bulk_sync_user_to_qdrant
  // ---------------------------------------------------------------------

  /** An embedding vector; its numbers stay opaque. */
  type Embedding = seq<real>

  datatype PointPayload = PointPayload(userId: string, data: string, metadata: Metadata, createdAt: Option<Time>, updatedAt: Option<Time>)

  datatype Point = Point(id: Uuid, vector: Embedding, payload: PointPayload)

  /**
   * What the external services answer: the error, if any, of making the
   * collection exist (`get_collection`, else `create_collection`), the batch
   * embedding call, and the upsert (`Some(text)` when it raises).  The
   * collection's outcome is fixed for the whole run, although each owner's
   * bulk sync asks for the collection again.
   */
  datatype Services = Services(
    collectionError: Option<string>,
    embed: seq<string> -> Result<seq<Embedding>>,
    upsert: seq<Point> -> Option<string>)

  /** `os.getenv("QDRANT_URL", "http://localhost:6333")`. */
  function QdrantUrl(env: map<string, string>): (r: string)
    ensures "QDRANT_URL" in env ==> r == env["QDRANT_URL"]
    ensures "QDRANT_URL" !in env ==> r == DefaultQdrantUrl
  {
    if "QDRANT_URL" in env then env["QDRANT_URL"] else DefaultQdrantUrl
  }

  function Contents(ms: seq<Memory>): (r: seq<string>)
    ensures |r| == |ms| && forall k :: 0 <= k < |ms| ==> r[k] == ms[k].content
  {
    seq(|ms|, k requires 0 <= k < |ms| => ms[k].content)
  }

  /** The point of one memory: id `str(memory.id)`, payload `user_id`, `data`, `metadata or {}`, timestamps. */
  function PointOf(m: Memory, e: Embedding, owner: string): Point
  {
    Point(m.id, e, PointPayload(owner, m.content, if m.metadata.Some? then m.metadata.value else map[], m.createdAt, m.updatedAt))
  }

  function Min(a: nat, b: nat): nat
  {
    if a <= b then a else b
  }

  /** `zip(memories, response.data)`: one point per pair, so never more points than memories. */
  function PointsOf(ms: seq<Memory>, data: seq<Embedding>, owner: string): (r: seq<Point>)
    ensures |r| == Min(|ms|, |data|) && |r| <= |ms|
    ensures forall k :: 0 <= k < |r| ==>
      r[k].id == ms[k].id && r[k].vector == data[k] && r[k].payload.userId == owner &&
      r[k].payload.data == ms[k].content &&
      r[k].payload.metadata == (if ms[k].metadata.Some? then ms[k].metadata.value else map[])
  {
    seq(Min(|ms|, |data|), k requires 0 <= k < Min(|ms|, |data|) => PointOf(ms[k], data[k], owner))
  }

  /** The loop building the points. */
  method BuildPoints(ms: seq<Memory>, data: seq<Embedding>, owner: string) returns (points: seq<Point>)
    ensures points == PointsOf(ms, data, owner)
  {
    points := [];
    var k := 0;
    while k < |ms| && k < |data|
      invariant 0 <= k <= Min(|ms|, |data|)
      invariant points == PointsOf(ms[..k], data[..k], owner)
    {
      points := points + [PointOf(ms[k], data[k], owner)];
      k := k + 1;
    }
    assert PointsOf(ms[..k], data[..k], owner) == PointsOf(ms, data, owner);
  }

  /** The outcome of one owner's batch: the count it returns (or its exception) and the points it upserted. */
  datatype BulkResult = BulkResult(count: Result<nat>, upserted: Option<seq<Point>>)

  /** What `bulk_sync_user_to_qdrant` does, step by step. */
  function BulkSync(ms: seq<Memory>, owner: string, dryRun: bool, env: map<string, string>, sv: Services): BulkResult
  {
    if |ms| == 0 then BulkResult(Ok(0), None)
    else if dryRun then BulkResult(Ok(|ms|), None)
    else if sv.collectionError.Some? then BulkResult(Err(sv.collectionError.value), None)
    else if !Truthy(Get(env, "OPENAI_API_KEY")) then BulkResult(Err("OPENAI_API_KEY not found in environment"), None)
    else
      match sv.embed(Contents(ms))
      case Err(e) => BulkResult(Err(e), None)
      case Ok(data) =>
        var points := PointsOf(ms, data, owner);
        match sv.upsert(points)
        case Some(e) => BulkResult(Err(e), Some(points))
        case None => BulkResult(Ok(|points|), Some(points))
  }

  method BulkSyncUser(ms: seq<Memory>, owner: string, dryRun: bool, env: map<string, string>, sv: Services)
    returns (r: BulkResult)
    ensures r == BulkSync(ms, owner, dryRun, env, sv)
  {
    if |ms| == 0 {
      return BulkResult(Ok(0), None);
    }
    if dryRun {
      return BulkResult(Ok(|ms|), None);
    }
    if sv.collectionError.Some? {
      return BulkResult(Err(sv.collectionError.value), None);
    }
    var key := Get(env, "OPENAI_API_KEY");
    if !Truthy(key) {
      return BulkResult(Err("OPENAI_API_KEY not found in environment"), None);
    }
    var response := sv.embed(Contents(ms));
    if response.Err? {
      return BulkResult(Err(response.error), None);
    }
    var points := BuildPoints(ms, response.value, owner);
    var failure := sv.upsert(points);
    if failure.Some? {
      return BulkResult(Err(failure.value), Some(points));
    }
    r := BulkResult(Ok(|points|), Some(points));
  }

  /** An empty list counts 0 and a dry run counts every memory, neither touching a service; a real count is at most the list's length. */
  lemma BulkSyncCounts(ms: seq<Memory>, owner: string, dryRun: bool, env: map<string, string>, sv: Services)
    ensures var r := BulkSync(ms, owner, dryRun, env, sv);
      (|ms| == 0 ==> r == BulkResult(Ok(0), None)) &&
      (|ms| > 0 && dryRun ==> r == BulkResult(Ok(|ms|), None)) &&
      (r.count.Ok? ==> r.count.value <= |ms|) &&
      (r.upserted.Some? ==> (!dryRun && |r.upserted.value| <= |ms| &&
         forall k :: 0 <= k < |r.upserted.value| ==> r.upserted.value[k].id == ms[k].id && r.upserted.value[k].payload.userId == owner))
  {
  }

  // ---------------------------------------------------------------------
  // sync_qdrant
  // ---------------------------------------------------------------------

  datatype Stats = Stats(total: nat, synced: nat, errors: nat, dryRun: bool)

  /** The per-owner loop over the first `order` owners, as counters. */
  function StatsOver(order: seq<string>, groups: map<string, seq<Memory>>, total: nat, dryRun: bool,
                     env: map<string, string>, sv: Services): Stats
    decreases |order|
  {
    if |order| == 0 then Stats(total, 0, 0, dryRun)
    else
      var s := StatsOver(order[..|order| - 1], groups, total, dryRun, env, sv);
      var u := order[|order| - 1];
      var ms := if u in groups then groups[u] else [];
      Tally(s, BulkSync(ms, u, dryRun, env, sv), |ms|)
  }

  /** The counters after one owner: its synced count, or its group size as errors. */
  function Tally(s: Stats, r: BulkResult, size: nat): Stats
  {
    match r.count
    case Ok(n) => s.(synced := s.synced + n)
    case Err(_) => s.(errors := s.errors + size)
  }

  /** The batch one owner upserted, if any. */
  function BatchOf(r: BulkResult): seq<seq<Point>>
  {
    if r.upserted.Some? then [r.upserted.value] else []
  }

  /** Every batch the loop upserted, in order. */
  function BatchesOver(order: seq<string>, groups: map<string, seq<Memory>>, dryRun: bool,
                       env: map<string, string>, sv: Services): seq<seq<Point>>
    decreases |order|
  {
    if |order| == 0 then []
    else
      var u := order[|order| - 1];
      var r := BulkSync(if u in groups then groups[u] else [], u, dryRun, env, sv);
      BatchesOver(order[..|order| - 1], groups, dryRun, env, sv) + BatchOf(r)
  }

  /** `stats` and `batches` are what the loop has produced for the owners `order`. */
  predicate Summarized(stats: Stats, batches: seq<seq<Point>>, order: seq<string>, groups: map<string, seq<Memory>>,
                       total: nat, dryRun: bool, env: map<string, string>, sv: Services)
  {
    stats == StatsOver(order, groups, total, dryRun, env, sv) && batches == BatchesOver(order, groups, dryRun, env, sv)
  }

  /** One more owner: its counts are added to the statistics and its batch, if any, appended. */
  lemma SummarizedSnoc(stats: Stats, batches: seq<seq<Point>>, order: seq<string>, i: nat, groups: map<string, seq<Memory>>,
                       total: nat, dryRun: bool, env: map<string, string>, sv: Services, ms: seq<Memory>, r: BulkResult)
    requires i < |order|
    requires ms == (if order[i] in groups then groups[order[i]] else [])
    requires r == BulkSync(ms, order[i], dryRun, env, sv)
    requires Summarized(stats, batches, order[..i], groups, total, dryRun, env, sv)
    ensures Summarized(Tally(stats, r, |ms|), batches + BatchOf(r), order[..i + 1], groups, total, dryRun, env, sv)
  {
    var p := order[..i + 1];
    assert p[..|p| - 1] == order[..i] && p[|p| - 1] == order[i];
  }

  /** The per-owner loop: a failing owner adds its group size to `errors` and the loop goes on. */
  method SyncOwners(g: Grouping, total: nat, dryRun: bool, env: map<string, string>, sv: Services)
    returns (stats: Stats, batches: seq<seq<Point>>)
    ensures stats == StatsOver(g.order, g.groups, total, dryRun, env, sv)
    ensures batches == BatchesOver(g.order, g.groups, dryRun, env, sv)
  {
    stats := Stats(total, 0, 0, dryRun);
    batches := [];
    var i := 0;
    while i < |g.order|
      invariant 0 <= i <= |g.order|
      invariant Summarized(stats, batches, g.order[..i], g.groups, total, dryRun, env, sv)
    {
      var u := g.order[i];
      var ms := if u in g.groups then g.groups[u] else [];
      var r := BulkSyncUser(ms, u, dryRun, env, sv);
      SummarizedSnoc(stats, batches, g.order, i, g.groups, total, dryRun, env, sv, ms, r);
      stats := Tally(stats, r, |ms|);
      batches := batches + BatchOf(r);
      i := i + 1;
    }
    assert g.order[..i] == g.order;
  }

  /** `synced + errors` never exceeds the grouped count; `total` and `dry_run` are carried through. */
  lemma {:induction false} StatsBounded(order: seq<string>, groups: map<string, seq<Memory>>, total: nat, dryRun: bool,
                                         env: map<string, string>, sv: Services)
    ensures var s := StatsOver(order, groups, total, dryRun, env, sv);
      s.total == total && s.dryRun == dryRun && s.synced + s.errors <= SumSizes(order, groups)
    decreases |order|
  {
    if |order| > 0 {
      var u := order[|order| - 1];
      StatsBounded(order[..|order| - 1], groups, total, dryRun, env, sv);
      BulkSyncCounts(if u in groups then groups[u] else [], u, dryRun, env, sv);
    }
  }

  /** A dry run has no errors, counts every grouped memory as synced, and upserts nothing. */
  lemma {:induction false} DryRunStats(order: seq<string>, groups: map<string, seq<Memory>>, total: nat,
                                        env: map<string, string>, sv: Services)
    ensures var s := StatsOver(order, groups, total, true, env, sv);
      s == Stats(total, SumSizes(order, groups), 0, true)
    ensures BatchesOver(order, groups, true, env, sv) == []
    decreases |order|
  {
    if |order| > 0 {
      var u := order[|order| - 1];
      DryRunStats(order[..|order| - 1], groups, total, env, sv);
      BulkSyncCounts(if u in groups then groups[u] else [], u, true, env, sv);
    }
  }

  /** When every owner's batch fails, every grouped memory is an error and nothing is synced. */
  lemma {:induction false} AllFailingStats(order: seq<string>, groups: map<string, seq<Memory>>, total: nat,
                                            env: map<string, string>, sv: Services)
    requires sv.collectionError.Some?
    requires forall u :: u in groups ==> groups[u] != []
    ensures StatsOver(order, groups, total, false, env, sv) == Stats(total, 0, SumSizes(order, groups), false)
    decreases |order|
  {
    if |order| > 0 {
      AllFailingStats(order[..|order| - 1], groups, total, env, sv);
    }
  }

  predicate IsActive(m: Memory)
  {
    m.state == Active
  }

  /**
   * `sync_qdrant(dry_run)`: fetch the active rows, group them, run one
   * batch per owner.  `None` is the `TypeError` of the cutoff comparison.
   */
  method Sync(rows: seq<Memory>, users: map<UserRef, string>, now: Time, dryRun: bool,
              env: map<string, string>, sv: Services)
    returns (r: Option<Stats>, batches: seq<seq<Point>>)
    ensures r.Some? <==> GroupAll(Filter(rows, IsActive), users, now).Some?
    ensures var active := Filter(rows, IsActive);
      (r.None? <==> exists k :: 0 <= k < |active| && RaisesOnCutoff(active[k], users)) &&
      (r.Some? ==>
         var g := GroupAll(active, users, now).value;
         r.value == StatsOver(g.order, g.groups, |active|, dryRun, env, sv) &&
         batches == BatchesOver(g.order, g.groups, dryRun, env, sv) &&
         r.value.total == |active| && r.value.dryRun == dryRun &&
         r.value.synced + r.value.errors <= SumSizes(g.order, g.groups) <= |active| &&
         (dryRun ==> r.value.errors == 0 && r.value.synced == SumSizes(g.order, g.groups) && batches == []))
    ensures r.None? ==> batches == []
  {
    var active := Filter(rows, IsActive);
    GroupAllFailsIff(active, users, now);
    var g := GroupMemories(active, users, now);
    if g.None? {
      return None, [];
    }
    GroupAllDescribes(active, users, now);
    StatsBounded(g.value.order, g.value.groups, |active|, dryRun, env, sv);
    if dryRun {
      DryRunStats(g.value.order, g.value.groups, |active|, env, sv);
    }
    var stats;
    stats, batches := SyncOwners(g.value, |active|, dryRun, env, sv);
    r := Some(stats);
  }

  // ---------------------------------------------------------------------
  // The index the batches build
  // ---------------------------------------------------------------------

  /** A Qdrant upsert: each point replaces the one stored under its id. */
  function Upsert(index: map<Uuid, Point>, points: seq<Point>): map<Uuid, Point>
    decreases |points|
  {
    if |points| == 0 then index
    else Upsert(index, points[..|points| - 1])[points[|points| - 1].id := points[|points| - 1]]
  }

  /** After an upsert every point's id is stored, and nothing else is added. */
  lemma {:induction false} UpsertStores(index: map<Uuid, Point>, points: seq<Point>)
    ensures forall k :: 0 <= k < |points| ==> points[k].id in Upsert(index, points)
    ensures forall id :: id in Upsert(index, points) <==> (id in index || exists k :: 0 <= k < |points| && points[k].id == id)
    decreases |points|
  {
    if |points| > 0 {
      var init := points[..|points| - 1];
      UpsertStores(index, init);
      forall id | (exists k :: 0 <= k < |points| && points[k].id == id) ensures id in Upsert(index, points) {
        var k :| 0 <= k < |points| && points[k].id == id;
        if k < |points| - 1 { assert init[k] == points[k]; }
      }
      forall id | id in Upsert(index, init) && id !in index
        ensures exists k :: 0 <= k < |points| && points[k].id == id
      {
        var k :| 0 <= k < |init| && init[k].id == id;
        assert points[k] == init[k];
      }
    }
  }

  /** An upsert overlays the batch on the index: what it writes does not depend on what was there. */
  lemma {:induction false} UpsertIsOverlay(index: map<Uuid, Point>, points: seq<Point>)
    ensures Upsert(index, points) == index + Upsert(map[], points)
    decreases |points|
  {
    if |points| > 0 {
      UpsertIsOverlay(index, points[..|points| - 1]);
    }
  }

  /** Writing the same batch again leaves the index as it is: a resync can be repeated. */
  lemma UpsertIdempotent(index: map<Uuid, Point>, points: seq<Point>)
    ensures Upsert(Upsert(index, points), points) == Upsert(index, points)
  {
    UpsertIsOverlay(index, points);
    UpsertIsOverlay(Upsert(index, points), points);
    assert (index + Upsert(map[], points)) + Upsert(map[], points) == index + Upsert(map[], points);
  }
}
