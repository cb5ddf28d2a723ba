/**
  Running a query for commit checkpoints: which columns are read, which edges the checkpoints
  that come back have, and what the edge accessors say about them.
 */
module CheckpointQueries {
  import opened Results
  import opened Selections
  import opened EagerLoading

  // ---------------------------------------------------------------- projection

  /** A stored checkpoint, as far as its edges are concerned. */
  datatype StoredCheckpoint = StoredCheckpoint(id: int, userID: Option<int>, repoConfigID: int)

  /** The query builder: the stored rows it matches, in order, and the edges it was asked to load. */
  datatype CheckpointQuery = CheckpointQuery(
    rows: seq<StoredCheckpoint>,
    fails: bool,
    fields: seq<string>,
    withUser: Option<TargetQuery>,
    withRepoConfig: Option<TargetQuery>,
    withToolUsageEvents: Option<ChildQuery>,
    withPrCommitUsageSnapshots: Option<ChildQuery>)
  {
    function Requested(): LoadedTypes {
      LoadedTypes(
        withUser.Some?, withRepoConfig.Some?, withToolUsageEvents.Some?, withPrCommitUsageSnapshots.Some?)
    }
  }

  const COLUMNS: seq<string> := [
    FIELD_ID, "event_id", FIELD_USER_ID, "workspace_id", FIELD_REPO_CONFIG_ID, "commit_sha", "parent_shas",
    "branch_snapshot", "head_snapshot", "lineage_kind", "source_commit_sha", "commit_patch_id",
    "source_patch_id", "binding_source", "agent_snapshot", "captured_at"]

  function WithoutID(fields: seq<string>): (kept: seq<string>)
    ensures forall f :: f in kept <==> f in fields && f != FIELD_ID
  {
    if fields == [] then []
    else
      var init, last := WithoutID(fields[..|fields| - 1]), fields[|fields| - 1];
      assert fields == fields[..|fields| - 1] + [last];
      if last == FIELD_ID then init else init + [last]
  }

  // The fields but for the id, in the order they were selected.
  lemma {:induction false} FieldsKeepOrder(fields: seq<string>) returns (at: seq<nat>)
    ensures PartAt(fields, WithoutID(fields), at)
    ensures forall k :: 0 <= k < |fields| ==> (k in at <==> fields[k] != FIELD_ID)
  {
    if fields == [] {
      at := [];
    } else {
      var n := |fields| - 1;
      at := FieldsKeepOrder(fields[..n]);
      PartGrows(fields[..n], WithoutID(fields[..n]), at, fields[n]);
      assert fields == fields[..n] + [fields[n]];
      if fields[n] != FIELD_ID {
        at := at + [n];
      }
    }
  }

  function SpecColumns(q: CheckpointQuery): seq<string> {
    if q.fields == [] then COLUMNS
    else
      var selected := [FIELD_ID] + WithoutID(q.fields);
      var withUser := if q.withUser.Some? then AppendFieldOnce(selected, FIELD_USER_ID) else selected;
      if q.withRepoConfig.Some? then AppendFieldOnce(withUser, FIELD_REPO_CONFIG_ID) else withUser
  }

  /** The columns part of querySpec. */
  method QuerySpec(q: CheckpointQuery) returns (columns: seq<string>)
    ensures columns == SpecColumns(q)
  {
    columns := COLUMNS;
    if |q.fields| > 0 {
      columns := [FIELD_ID];
      for i := 0 to |q.fields|
        invariant columns == [FIELD_ID] + WithoutID(q.fields[..i])
      {
        assert q.fields[..i + 1][..i] == q.fields[..i];
        if q.fields[i] != FIELD_ID {
          columns := columns + [q.fields[i]];
        }
      }
      assert q.fields[..|q.fields|] == q.fields;
      if q.withUser.Some? {
        columns := AppendFieldOnce(columns, FIELD_USER_ID);
      }
      if q.withRepoConfig.Some? {
        columns := AppendFieldOnce(columns, FIELD_REPO_CONFIG_ID);
      }
    }
  }

  // Whatever was selected, the columns start with the id, hold no second id, hold every
  // selected field and every foreign key a requested edge needs, and nothing else.
  lemma SpecColumnsMeaning(q: CheckpointQuery)
    ensures var columns := SpecColumns(q);
            && columns != [] && columns[0] == FIELD_ID && FIELD_ID !in columns[1..]
            && (q.withUser.Some? ==> FIELD_USER_ID in columns)
            && (q.withRepoConfig.Some? ==> FIELD_REPO_CONFIG_ID in columns)
            && (forall f :: f in q.fields ==> f in columns)
            && (q.fields != [] ==> forall f :: f in columns ==>
                  || f == FIELD_ID || f in q.fields
                  || (q.withUser.Some? && f == FIELD_USER_ID)
                  || (q.withRepoConfig.Some? && f == FIELD_REPO_CONFIG_ID))
  {
    if q.fields == [] {
      assert COLUMNS[2] == FIELD_USER_ID && COLUMNS[4] == FIELD_REPO_CONFIG_ID;
      ColumnsHoldOneID();
    } else {
      assert FIELD_ID[0] == 'i' && FIELD_USER_ID[0] == 'u' && FIELD_REPO_CONFIG_ID[0] == 'r';
      var kept := WithoutID(q.fields);
      assert ([FIELD_ID] + kept)[1..] == kept;
      AppendAfterHead(FIELD_ID, kept, FIELD_USER_ID);
      var withUser := if q.withUser.Some? then AppendFieldOnce([FIELD_ID] + kept, FIELD_USER_ID) else [FIELD_ID] + kept;
      assert withUser == [FIELD_ID] + withUser[1..];
      AppendAfterHead(FIELD_ID, withUser[1..], FIELD_REPO_CONFIG_ID);
    }
  }

  lemma AppendAfterHead(head: string, rest: seq<string>, field: string)
    requires head != field
    ensures AppendFieldOnce([head] + rest, field) == [head] + if field in rest then rest else rest + [field]
  {
  }

  lemma ColumnsHoldOneID()
    ensures FIELD_ID !in COLUMNS[1..]
  {
    assert |FIELD_ID| == 2;
    assert COLUMNS[1..] == [
      COLUMNS[1], COLUMNS[2], COLUMNS[3], COLUMNS[4], COLUMNS[5], COLUMNS[6], COLUMNS[7], COLUMNS[8],
      COLUMNS[9], COLUMNS[10], COLUMNS[11], COLUMNS[12], COLUMNS[13], COLUMNS[14], COLUMNS[15]];
  }

  function ScanCheckpoint(row: StoredCheckpoint, columns: seq<string>): StoredCheckpoint {
    StoredCheckpoint(
      if FIELD_ID in columns then row.id else 0,
      if FIELD_USER_ID in columns then row.userID else None,
      if FIELD_REPO_CONFIG_ID in columns then row.repoConfigID else 0)
  }

  // ---------------------------------------------------------------- running the query

  function StoredIDs(rows: seq<StoredCheckpoint>): (ids: seq<int>)
    ensures |ids| == |rows|
    ensures forall i :: 0 <= i < |rows| ==> ids[i] == rows[i].id
  {
    seq(|rows|, i requires 0 <= i < |rows| => rows[i].id)
  }

  function StoredUserKeys(rows: seq<StoredCheckpoint>): (keys: seq<Option<int>>)
    ensures |keys| == |rows|
    ensures forall i :: 0 <= i < |rows| ==> keys[i] == rows[i].userID
  {
    seq(|rows|, i requires 0 <= i < |rows| => rows[i].userID)
  }

  /** The children the checkpoint of row `i` ends with. */
  function LoadedChildren(q: CheckpointQuery, edge: ChildQuery, i: nat): seq<Child>
    requires i < |q.rows|
  {
    if IsLast(StoredIDs(q.rows), i) then ChildrenOf(edge.rows, q.rows[i].id) else []
  }

  /** The edges of row `i`, looked up one row at a time and without regard to the selected fields. */
  function ExpectedEdges(q: CheckpointQuery, i: nat): Edges
    requires i < |q.rows|
  {
    Edges(
      if q.withUser.Some? then Lookup(q.withUser.value.rows, q.rows[i].userID) else None,
      if q.withRepoConfig.Some? then Lookup(q.withRepoConfig.value.rows, Some(q.rows[i].repoConfigID)) else None,
      if q.withToolUsageEvents.Some? then Some(LoadedChildren(q, q.withToolUsageEvents.value, i)) else None,
      if q.withPrCommitUsageSnapshots.Some? then Some(LoadedChildren(q, q.withPrCommitUsageSnapshots.value, i))
      else None,
      q.Requested())
  }

  /** The users are only asked for when some row has a user. */
  predicate UserFails(q: CheckpointQuery) {
    q.withUser.Some? && q.withUser.value.fails && CountKeyed(StoredUserKeys(q.rows)) > 0
  }

  predicate AnEdgeFails(q: CheckpointQuery) {
    || UserFails(q)
    || (q.withRepoConfig.Some? && q.withRepoConfig.value.fails)
    || (q.withToolUsageEvents.Some? && q.withToolUsageEvents.value.fails)
    || (q.withPrCommitUsageSnapshots.Some? && q.withPrCommitUsageSnapshots.value.fails)
  }

  ghost predicate Scanned(q: CheckpointQuery, columns: seq<string>, nodes: seq<CommitCheckpoint>) {
    && |nodes| <= |q.rows|
    && Distinct(nodes)
    && forall i :: 0 <= i < |nodes| ==>
         && nodes[i].id == ScanCheckpoint(q.rows[i], columns).id
         && nodes[i].userID == ScanCheckpoint(q.rows[i], columns).userID
         && nodes[i].repoConfigID == ScanCheckpoint(q.rows[i], columns).repoConfigID
  }

  /** The node-building half of sqlAll: one fresh node for every row, scanned over the columns. */
  method ScanNodes(q: CheckpointQuery, columns: seq<string>) returns (nodes: seq<CommitCheckpoint>)
    ensures |nodes| == |q.rows| && Scanned(q, columns, nodes)
    ensures forall n :: n in nodes ==> fresh(n) && n.edges == Edges(None, None, None, None, q.Requested())
  {
    nodes := [];
    for i := 0 to |q.rows|
      invariant |nodes| == i && Scanned(q, columns, nodes)
      invariant forall n :: n in nodes ==> fresh(n) && n.edges == Edges(None, None, None, None, q.Requested())
    {
      var scanned := ScanCheckpoint(q.rows[i], columns);
      var node := new CommitCheckpoint(scanned.id, scanned.userID, scanned.repoConfigID, q.Requested());
      nodes := nodes + [node];
    }
  }

  ghost predicate SameKeys(q: CheckpointQuery, nodes: seq<CommitCheckpoint>)
    requires |nodes| == |q.rows|
  {
    && IDs(nodes) == StoredIDs(q.rows)
    && (q.withUser.Some? ==> UserKeys(nodes) == StoredUserKeys(q.rows))
    && forall i :: 0 <= i < |nodes| ==>
         && nodes[i].id == q.rows[i].id
         && (q.withUser.Some? ==> nodes[i].userID == q.rows[i].userID)
         && (q.withRepoConfig.Some? ==> nodes[i].repoConfigID == q.rows[i].repoConfigID)
  }

  // Whatever fields were selected, the nodes hold every key the requested edges need.
  lemma KeysSurviveProjection(q: CheckpointQuery, columns: seq<string>, nodes: seq<CommitCheckpoint>)
    requires columns == SpecColumns(q) && Scanned(q, columns, nodes) && |nodes| == |q.rows|
    ensures SameKeys(q, nodes)
  {
    SpecColumnsMeaning(q);
    assert columns[0] in columns;
  }

  /** The first two loaders of sqlAll. */
  method LoadToOneEdges(q: CheckpointQuery, nodes: seq<CommitCheckpoint>) returns (r: Result<(), QueryError>)
    requires |nodes| == |q.rows| > 0 && Distinct(nodes) && SameKeys(q, nodes)
    modifies set n | n in nodes
    ensures r == if UserFails(q) || (q.withRepoConfig.Some? && q.withRepoConfig.value.fails) then Err(QueryFailed)
                 else Ok(())
    ensures r.Ok? ==> forall i :: 0 <= i < |nodes| ==>
              nodes[i].edges == WithToOneEdges(q, i, old(nodes[i].edges))
  {
    if q.withUser.Some? {
      r := LoadUser(q.withUser.value, nodes);
      if r.Err? {
        return;
      }
    }
    if q.withRepoConfig.Some? {
      r := LoadRepoConfig(q.withRepoConfig.value, nodes);
      if r.Err? {
        return;
      }
    }
    return Ok(());
  }

  /** The last two loaders of sqlAll. */
  method LoadToManyEdges(q: CheckpointQuery, nodes: seq<CommitCheckpoint>) returns (r: Result<(), QueryError>)
    requires |nodes| == |q.rows| && Distinct(nodes) && SameKeys(q, nodes)
    modifies set n | n in nodes
    ensures r == if || (q.withToolUsageEvents.Some? && q.withToolUsageEvents.value.fails)
                    || (q.withPrCommitUsageSnapshots.Some? && q.withPrCommitUsageSnapshots.value.fails)
                 then Err(QueryFailed) else Ok(())
    ensures r.Ok? ==> forall i :: 0 <= i < |nodes| ==>
              nodes[i].edges == WithToManyEdges(q, i, old(nodes[i].edges))
  {
    if q.withToolUsageEvents.Some? {
      r := LoadToolUsageEvents(q.withToolUsageEvents.value, nodes);
      if r.Err? {
        return;
      }
    }
    if q.withPrCommitUsageSnapshots.Some? {
      r := LoadPrCommitUsageSnapshots(q.withPrCommitUsageSnapshots.value, nodes);
      if r.Err? {
        return;
      }
    }
    return Ok(());
  }

  ghost function WithToOneEdges(q: CheckpointQuery, i: nat, edges: Edges): Edges
    requires i < |q.rows|
  {
    var user := if q.withUser.Some? then Lookup(q.withUser.value.rows, q.rows[i].userID) else None;
    var repo := if q.withRepoConfig.Some? then Lookup(q.withRepoConfig.value.rows, Some(q.rows[i].repoConfigID)) else None;
    edges.(user := if user.Some? then user else edges.user,
           repoConfig := if repo.Some? then repo else edges.repoConfig)
  }

  ghost function WithToManyEdges(q: CheckpointQuery, i: nat, edges: Edges): Edges
    requires i < |q.rows|
  {
    var expected := ExpectedEdges(q, i);
    edges.(
      toolUsageEvents := if q.withToolUsageEvents.Some? then expected.toolUsageEvents else edges.toolUsageEvents,
      prCommitUsageSnapshots :=
        if q.withPrCommitUsageSnapshots.Some? then expected.prCommitUsageSnapshots else edges.prCommitUsageSnapshots)
  }

  /** sqlAll. */
  method SqlAll(q: CheckpointQuery) returns (r: Result<seq<CommitCheckpoint>, QueryError>)
    ensures r.Err? <==> q.fails || (q.rows != [] && AnEdgeFails(q))
    ensures r.Err? ==> r.error == QueryFailed
    ensures r.Ok? ==> |r.value| == |q.rows| && Distinct(r.value)
    ensures r.Ok? ==> forall i :: 0 <= i < |q.rows| ==>
              && fresh(r.value[i])
              && r.value[i].id == q.rows[i].id
              && r.value[i].edges == ExpectedEdges(q, i)
              && ListsOfRow(q, i, r.value[i].edges)
  {
    forall i | 0 <= i < |q.rows|
      ensures ListsOfRow(q, i, ExpectedEdges(q, i))
    {
      ListsAreOfRow(q, i);
    }
    var columns := QuerySpec(q);
    if q.fails {
      return Err(QueryFailed);
    }
    var nodes := ScanNodes(q, columns);
    if |nodes| == 0 {
      return Ok(nodes);
    }
    KeysSurviveProjection(q, columns, nodes);
    var e := LoadToOneEdges(q, nodes);
    if e.Ok? {
      e := LoadToManyEdges(q, nodes);
    }
    return if e.Ok? then Ok(nodes) else Err(e.error);
  }

  // ---------------------------------------------------------------- what the edges mean

  /** A list that was requested: the children of row `i` as they were fetched, or none when row `i` comes again. */
  ghost predicate ListOfRow(q: CheckpointQuery, edge: ChildQuery, i: nat, list: Option<seq<Child>>)
    requires i < |q.rows|
  {
    && list.Some?
    && if exists j :: i < j < |q.rows| && q.rows[j].id == q.rows[i].id then list.value == []
       else InFetchOrder(edge.rows, q.rows[i].id, list.value)
  }

  /** Both lists of row `i`; one that was not requested is not there. */
  ghost predicate ListsOfRow(q: CheckpointQuery, i: nat, e: Edges)
    requires i < |q.rows|
  {
    && (if q.withToolUsageEvents.None? then e.toolUsageEvents == None
        else ListOfRow(q, q.withToolUsageEvents.value, i, e.toolUsageEvents))
    && (if q.withPrCommitUsageSnapshots.None? then e.prCommitUsageSnapshots == None
        else ListOfRow(q, q.withPrCommitUsageSnapshots.value, i, e.prCommitUsageSnapshots))
  }

  lemma ListIsOfRow(q: CheckpointQuery, edge: ChildQuery, i: nat)
    requires i < |q.rows|
    ensures ListOfRow(q, edge, i, Some(LoadedChildren(q, edge, i)))
  {
    var ids := StoredIDs(q.rows);
    ChildrenInFetchOrder(edge.rows, q.rows[i].id);
    var later := ids[i + 1..];
    assert forall j :: i < j < |q.rows| ==> later[j - i - 1] == q.rows[j].id;
    forall k | 0 <= k < |later|
      ensures later[k] == q.rows[i + 1 + k].id
    {
    }
  }

  lemma ListsAreOfRow(q: CheckpointQuery, i: nat)
    requires i < |q.rows|
    ensures ListsOfRow(q, i, ExpectedEdges(q, i))
  {
    if q.withToolUsageEvents.Some? {
      ListIsOfRow(q, q.withToolUsageEvents.value, i);
    }
    if q.withPrCommitUsageSnapshots.Some? {
      ListIsOfRow(q, q.withPrCommitUsageSnapshots.value, i);
    }
  }

  // The accessors tell apart an edge that was not asked for, one that was and is there, and
  // one that was and is missing.
  lemma AccessorsClassify(q: CheckpointQuery, i: nat)
    requires i < |q.rows|
    ensures var e := ExpectedEdges(q, i);
            && (e.UserOrErr() == Err(NotLoaded("user")) <==> q.withUser.None?)
            && (e.RepoConfigOrErr() == Err(NotLoaded("repo_config")) <==> q.withRepoConfig.None?)
            && (e.ToolUsageEventsOrErr() == Err(NotLoaded("tool_usage_events")) <==> q.withToolUsageEvents.None?)
            && (e.PrCommitUsageSnapshotsOrErr() == Err(NotLoaded("pr_commit_usage_snapshots")) <==>
                q.withPrCommitUsageSnapshots.None?)
    ensures q.withUser.Some? ==> OneOrNotFound(q.withUser.value, q.rows[i].userID, ExpectedEdges(q, i).UserOrErr(), "user")
    ensures q.withRepoConfig.Some? ==>
              OneOrNotFound(q.withRepoConfig.value, Some(q.rows[i].repoConfigID), ExpectedEdges(q, i).RepoConfigOrErr(),
                            "repo_config")
    ensures q.withToolUsageEvents.Some? ==>
              ExpectedEdges(q, i).ToolUsageEventsOrErr() == Ok(Some(LoadedChildren(q, q.withToolUsageEvents.value, i)))
    ensures q.withPrCommitUsageSnapshots.Some? ==>
              ExpectedEdges(q, i).PrCommitUsageSnapshotsOrErr() ==
              Ok(Some(LoadedChildren(q, q.withPrCommitUsageSnapshots.value, i)))
  {
    if q.withUser.Some? {
      UniqueRow(q.withUser.value, q.rows[i].userID);
    }
    if q.withRepoConfig.Some? {
      UniqueRow(q.withRepoConfig.value, Some(q.rows[i].repoConfigID));
    }
  }

  /** The row the key names when there is one, else not-found; ids being distinct it is the only one. */
  ghost predicate OneOrNotFound(query: TargetQuery, key: Option<int>, r: Result<Target, QueryError>, entity: string) {
    && (r == Err(NotFound(entity)) <==> !exists row :: row in query.rows && key == Some(row.id))
    && (r.Ok? ==> r.value in query.rows && key == Some(r.value.id))
    && (r.Err? ==> r.error == NotFound(entity))
    && (DistinctTargets(query.rows) ==> forall row :: row in query.rows && key == Some(row.id) ==> r == Ok(row))
  }

  ghost predicate DistinctTargets(rows: seq<Target>) {
    forall i, j :: 0 <= i < j < |rows| ==> rows[i].id != rows[j].id
  }

  lemma UniqueRow(query: TargetQuery, key: Option<int>)
    ensures DistinctTargets(query.rows) ==>
              forall row :: row in query.rows && key == Some(row.id) ==> Lookup(query.rows, key) == Some(row)
  {
    if DistinctTargets(query.rows) {
      forall row | row in query.rows && key == Some(row.id)
        ensures Lookup(query.rows, key) == Some(row)
      {
        LookupMeaning(query.rows, key, row);
      }
    }
  }

  // Every checkpoint has the full list of its children exactly when no checkpoint that comes
  // back again further down has children: of rows with one id only the last gets the list.
  lemma ListsAreComplete(q: CheckpointQuery, edge: ChildQuery)
    ensures (forall i :: 0 <= i < |q.rows| ==> LoadedChildren(q, edge, i) == ChildrenOf(edge.rows, q.rows[i].id)) <==>
            (forall i :: 0 <= i < |q.rows| && !IsLast(StoredIDs(q.rows), i) ==>
               ChildrenOf(edge.rows, q.rows[i].id) == [])
    ensures Distinct(StoredIDs(q.rows)) ==>
              forall i :: 0 <= i < |q.rows| ==> LoadedChildren(q, edge, i) == ChildrenOf(edge.rows, q.rows[i].id)
  {
    if Distinct(StoredIDs(q.rows)) {
      forall i | 0 <= i < |q.rows|
        ensures IsLast(StoredIDs(q.rows), i)
      {
      }
    }
    if forall i :: 0 <= i < |q.rows| ==> LoadedChildren(q, edge, i) == ChildrenOf(edge.rows, q.rows[i].id) {
      forall i | 0 <= i < |q.rows| && !IsLast(StoredIDs(q.rows), i)
        ensures ChildrenOf(edge.rows, q.rows[i].id) == []
      {
        assert LoadedChildren(q, edge, i) == [];
      }
    }
  }

  // A query that returns one checkpoint twice leaves the first of the two without children.
  lemma RepeatedRowLosesItsChildren(q: CheckpointQuery, edge: ChildQuery)
    requires q.rows == [StoredCheckpoint(1, None, 1), StoredCheckpoint(1, None, 1)]
    requires edge.rows == [Child(7, Some(1), "")]
    ensures LoadedChildren(q, edge, 0) == [] != ChildrenOf(edge.rows, 1) == LoadedChildren(q, edge, 1)
  {
    var ids := StoredIDs(q.rows);
    assert ids == [1, 1];
    assert ids[1..] == [1] && ids[2..] == [];
    assert edge.rows[..0] == [];
    assert ChildrenOf(edge.rows, 1) == ChildrenOf([], 1) + edge.rows;
  }

  function TotalLoaded(ids: seq<int>, rows: seq<Child>, n: nat): nat
    requires n <= |ids|
  {
    if n == 0 then 0
    else TotalLoaded(ids, rows, n - 1) + if IsLast(ids, n - 1) then |ChildrenOf(rows, ids[n - 1])| else 0
  }

  /** How many of the first `n` elements are `k` and not repeated later. */
  function LastCount(ids: seq<int>, k: Option<int>, n: nat): nat
    requires n <= |ids|
  {
    if n == 0 then 0
    else LastCount(ids, k, n - 1) + if IsLast(ids, n - 1) && k == Some(ids[n - 1]) then 1 else 0
  }

  lemma {:induction false} OneLast(ids: seq<int>, k: Option<int>, n: nat)
    requires n <= |ids|
    ensures LastCount(ids, k, n) ==
            if k.Some? && k.value in ids[..n] && k.value !in ids[n..] then 1 else 0
  {
    if n > 0 {
      OneLast(ids, k, n - 1);
      assert ids[..n] == ids[..n - 1] + [ids[n - 1]];
      assert ids[n - 1..] == [ids[n - 1]] + ids[n..];
    }
  }

  lemma {:induction false} TotalGrows(ids: seq<int>, rows: seq<Child>, n: nat)
    requires n <= |ids| && rows != []
    ensures TotalLoaded(ids, rows, n) ==
            TotalLoaded(ids, rows[..|rows| - 1], n) + LastCount(ids, rows[|rows| - 1].commitCheckpointID, n)
  {
    if n > 0 {
      TotalGrows(ids, rows, n - 1);
    }
  }

  lemma {:induction false} NothingLoaded(ids: seq<int>, n: nat)
    requires n <= |ids|
    ensures TotalLoaded(ids, [], n) == 0
  {
    if n > 0 {
      NothingLoaded(ids, n - 1);
    }
  }

  lemma {:induction false} TotalIsFetched(ids: seq<int>, rows: seq<Child>)
    ensures TotalLoaded(ids, rows, |ids|) == |WithCheckpointIn(rows, ids)|
  {
    if rows == [] {
      NothingLoaded(ids, |ids|);
    } else {
      TotalIsFetched(ids, rows[..|rows| - 1]);
      TotalGrows(ids, rows, |ids|);
      OneLast(ids, rows[|rows| - 1].commitCheckpointID, |ids|);
      assert ids[..|ids|] == ids;
    }
  }

  function SumLengths(q: CheckpointQuery, edge: ChildQuery, n: nat): nat
    requires n <= |q.rows|
  {
    if n == 0 then 0 else SumLengths(q, edge, n - 1) + |LoadedChildren(q, edge, n - 1)|
  }

  lemma {:induction false} SumIsTotal(q: CheckpointQuery, edge: ChildQuery, n: nat)
    requires n <= |q.rows|
    ensures SumLengths(q, edge, n) == TotalLoaded(StoredIDs(q.rows), edge.rows, n)
  {
    if n > 0 {
      SumIsTotal(q, edge, n - 1);
    }
  }

  // Every fetched child lands in exactly one list: the lengths of the lists add up to the
  // number of children fetched.
  lemma EveryChildLandsOnce(q: CheckpointQuery, edge: ChildQuery)
    ensures SumLengths(q, edge, |q.rows|) == |WithCheckpointIn(edge.rows, StoredIDs(q.rows))|
  {
    SumIsTotal(q, edge, |q.rows|);
    TotalIsFetched(StoredIDs(q.rows), edge.rows);
  }
}
