/**
  Eager loading of the edges of commit checkpoints: each loader collects the keys of the
  checkpoints, runs one batched query, and hands the rows out to the checkpoints.
 */
module EagerLoading {
  import opened Results
  import opened Selections

  /** A row of the `users` or of the `repo_configs` table, as its own query returns it. */
  datatype Target = Target(id: int, name: string)
  type User = Target
  type RepoConfig = Target

  /** A row of `tool_usage_events` or of `pr_commit_usage_snapshots`; its checkpoint may be NULL. */
  datatype Child = Child(id: int, commitCheckpointID: Option<int>, detail: string)
  type ToolUsageEvent = Child
  type PRCommitUsageSnapshot = Child

  datatype QueryError =
    | QueryFailed
    | UnexpectedForeignKey(key: int)
    | NilForeignKey(child: int)
    | NotFound(entity: string)
    | NotLoaded(edge: string)

  /** A query on an edge: the rows it has before the loader's IN condition, in its order. */
  datatype TargetQuery = TargetQuery(rows: seq<Target>, fails: bool)

  /** As above; `fields` are the columns its caller selected, none meaning all of them. */
  datatype ChildQuery = ChildQuery(rows: seq<Child>, fields: seq<string>, fails: bool)

  const FIELD_ID := "id"
  const FIELD_USER_ID := "user_id"
  const FIELD_REPO_CONFIG_ID := "repo_config_id"
  const FIELD_COMMIT_CHECKPOINT_ID := "commit_checkpoint_id"

  // ---------------------------------------------------------------- edges and accessors

  datatype LoadedTypes = LoadedTypes(user: bool, repoConfig: bool, toolUsageEvents: bool, prCommitUsageSnapshots: bool)

  datatype Edges = Edges(
    user: Option<User>,
    repoConfig: Option<RepoConfig>,
    toolUsageEvents: Option<seq<ToolUsageEvent>>,
    prCommitUsageSnapshots: Option<seq<PRCommitUsageSnapshot>>,
    loadedTypes: LoadedTypes)
  {
    function UserOrErr(): Result<User, QueryError> {
      if user.Some? then Ok(user.value)
      else if loadedTypes.user then Err(NotFound("user"))
      else Err(NotLoaded("user"))
    }

    function RepoConfigOrErr(): Result<RepoConfig, QueryError> {
      if repoConfig.Some? then Ok(repoConfig.value)
      else if loadedTypes.repoConfig then Err(NotFound("repo_config"))
      else Err(NotLoaded("repo_config"))
    }

    function ToolUsageEventsOrErr(): Result<Option<seq<ToolUsageEvent>>, QueryError> {
      if loadedTypes.toolUsageEvents then Ok(toolUsageEvents) else Err(NotLoaded("tool_usage_events"))
    }

    function PrCommitUsageSnapshotsOrErr(): Result<Option<seq<PRCommitUsageSnapshot>>, QueryError> {
      if loadedTypes.prCommitUsageSnapshots then Ok(prCommitUsageSnapshots)
      else Err(NotLoaded("pr_commit_usage_snapshots"))
    }
  }

  class CommitCheckpoint {
    const id: int
    const userID: Option<int>
    const repoConfigID: int
    var edges: Edges

    constructor (id: int, userID: Option<int>, repoConfigID: int, loadedTypes: LoadedTypes)
      ensures this.id == id && this.userID == userID && this.repoConfigID == repoConfigID
      ensures edges == Edges(None, None, None, None, loadedTypes)
    {
      this.id, this.userID, this.repoConfigID := id, userID, repoConfigID;
      edges := Edges(None, None, None, None, loadedTypes);
    }
  }

  predicate Distinct<T(==)>(s: seq<T>) {
    forall i, j :: 0 <= i < j < |s| ==> s[i] != s[j]
  }

  // ---------------------------------------------------------------- the simple lookups

  /** The row a key names: the last one, should the query repeat an id. */
  function Lookup(rows: seq<Target>, key: Option<int>): (row: Option<Target>)
    ensures row.Some? ==> row.value in rows && key == Some(row.value.id)
    ensures row.None? && key.Some? ==> forall r :: r in rows ==> r.id != key.value
  {
    if key.None? || rows == [] then None
    else
      var last := rows[|rows| - 1];
      if last.id == key.value then Some(last) else Lookup(rows[..|rows| - 1], key)
  }

  /** The children of one checkpoint, in the order of the query. */
  function ChildrenOf(rows: seq<Child>, id: int): seq<Child> {
    if rows == [] then []
    else
      var init, last := ChildrenOf(rows[..|rows| - 1], id), rows[|rows| - 1];
      if last.commitCheckpointID == Some(id) then init + [last] else init
  }

  /** The list holds exactly the rows whose key is `id`, each once, in the order they were fetched. */
  ghost predicate InFetchOrder(rows: seq<Child>, id: int, children: seq<Child>) {
    exists at: seq<nat> :: FetchedAt(rows, id, children, at)
  }

  ghost predicate FetchedAt(rows: seq<Child>, id: int, children: seq<Child>, at: seq<nat>) {
    && PartAt(rows, children, at)
    && forall k :: 0 <= k < |rows| ==> (k in at <==> rows[k].commitCheckpointID == Some(id))
  }

  lemma {:induction false} ChildrenAt(rows: seq<Child>, id: int) returns (at: seq<nat>)
    ensures FetchedAt(rows, id, ChildrenOf(rows, id), at)
  {
    if rows == [] {
      at := [];
    } else {
      var n := |rows| - 1;
      at := ChildrenAt(rows[..n], id);
      PartGrows(rows[..n], ChildrenOf(rows[..n], id), at, rows[n]);
      assert rows == rows[..n] + [rows[n]];
      if rows[n].commitCheckpointID == Some(id) {
        at := at + [n];
      }
    }
  }

  lemma ChildrenInFetchOrder(rows: seq<Child>, id: int)
    ensures InFetchOrder(rows, id, ChildrenOf(rows, id))
  {
    var _ := ChildrenAt(rows, id);
  }

  /** Whether no later element repeats the one at `i`. */
  predicate IsLast(ids: seq<int>, i: nat)
    requires i < |ids|
  {
    ids[i] !in ids[i + 1..]
  }

  // With distinct ids a key names a row exactly when that row is there.
  lemma {:induction false} LookupMeaning(rows: seq<Target>, key: Option<int>, row: Target)
    requires forall i, j :: 0 <= i < j < |rows| ==> rows[i].id != rows[j].id
    ensures Lookup(rows, key) == Some(row) <==> row in rows && key == Some(row.id)
  {
    if row in rows && key == Some(row.id) {
      var found := Lookup(rows, key).value;
      var i :| 0 <= i < |rows| && rows[i] == row;
      var j :| 0 <= j < |rows| && rows[j] == found;
    }
  }

  // ---------------------------------------------------------------- batched queries

  /** Rows with their id IN the list, in the order of the query. */
  function WithIDIn(rows: seq<Target>, ids: seq<int>): (found: seq<Target>)
    ensures forall r :: r in found <==> r in rows && r.id in ids
  {
    if rows == [] then []
    else
      var init, last := WithIDIn(rows[..|rows| - 1], ids), rows[|rows| - 1];
      assert rows == rows[..|rows| - 1] + [last];
      if last.id in ids then init + [last] else init
  }

  /** Rows with their checkpoint IN the list; a NULL is in no list. */
  function WithCheckpointIn(rows: seq<Child>, ids: seq<int>): (found: seq<Child>)
    ensures forall r :: r in found <==> r in rows && r.commitCheckpointID.Some? && r.commitCheckpointID.value in ids
  {
    if rows == [] then []
    else
      var init, last := WithCheckpointIn(rows[..|rows| - 1], ids), rows[|rows| - 1];
      assert rows == rows[..|rows| - 1] + [last];
      if last.commitCheckpointID.Some? && last.commitCheckpointID.value in ids then init + [last] else init
  }

  function AppendFieldOnce(fields: seq<string>, field: string): seq<string> {
    if field in fields then fields else fields + [field]
  }

  /** A child as it is scanned: the column of its checkpoint is filled only when selected. */
  function ScanChild(row: Child, fields: seq<string>): Child {
    if fields == [] || FIELD_COMMIT_CHECKPOINT_ID in fields then row else row.(commitCheckpointID := None)
  }

  function ScanChildren(rows: seq<Child>, fields: seq<string>): seq<Child> {
    seq(|rows|, i requires 0 <= i < |rows| => ScanChild(rows[i], fields))
  }

  // ---------------------------------------------------------------- grouping by key

  /** The keys that are set, each once, in first-occurrence order. */
  function Keys(keys: seq<Option<int>>): (ids: seq<int>)
    ensures forall k :: k in ids <==> Some(k) in keys
    ensures Distinct(ids)
  {
    if keys == [] then []
    else
      var init, last := Keys(keys[..|keys| - 1]), keys[|keys| - 1];
      assert keys == keys[..|keys| - 1] + [last];
      if last.None? || last.value in init then init else init + [last.value]
  }

  /** The nodes whose key is `k`, in order. */
  function Holders(nodes: seq<CommitCheckpoint>, keys: seq<Option<int>>, k: int): seq<CommitCheckpoint>
    requires |nodes| == |keys|
  {
    if keys == [] then []
    else
      var n := |keys| - 1;
      var init := Holders(nodes[..n], keys[..n], k);
      if keys[n] == Some(k) then init + [nodes[n]] else init
  }

  lemma {:induction false} HoldersMembers(nodes: seq<CommitCheckpoint>, keys: seq<Option<int>>, k: int)
    requires |nodes| == |keys|
    requires Distinct(nodes)
    ensures forall i :: 0 <= i < |nodes| ==> (nodes[i] in Holders(nodes, keys, k) <==> keys[i] == Some(k))
    ensures forall n :: n in Holders(nodes, keys, k) ==> n in nodes
  {
    if keys != [] {
      var n := |keys| - 1;
      HoldersMembers(nodes[..n], keys[..n], k);
      assert nodes == nodes[..n] + [nodes[n]];
      var init := Holders(nodes[..n], keys[..n], k);
      forall i | 0 <= i < n
        ensures nodes[i] in init <==> keys[i] == Some(k)
      {
        assert nodes[i] == nodes[..n][i] && keys[i] == keys[..n][i];
      }
    }
  }

  lemma {:induction false} HoldersDistinct(nodes: seq<CommitCheckpoint>, keys: seq<Option<int>>, k: int)
    requires |nodes| == |keys|
    requires Distinct(nodes)
    ensures Distinct(Holders(nodes, keys, k))
  {
    if keys != [] {
      var n := |keys| - 1;
      HoldersDistinct(nodes[..n], keys[..n], k);
      HoldersMembers(nodes[..n], keys[..n], k);
      var init := Holders(nodes[..n], keys[..n], k);
      forall i | 0 <= i < |init|
        ensures init[i] != nodes[n]
      {
        assert init[i] in init && init[i] in nodes[..n];
        assert nodes[n] !in nodes[..n];
      }
    }
  }

  function GroupSizes(nodes: seq<CommitCheckpoint>, keys: seq<Option<int>>, ids: seq<int>): nat
    requires |nodes| == |keys|
  {
    if ids == [] then 0
    else GroupSizes(nodes, keys, ids[..|ids| - 1]) + |Holders(nodes, keys, ids[|ids| - 1])|
  }

  function CountKeyed(keys: seq<Option<int>>): nat {
    if keys == [] then 0
    else CountKeyed(keys[..|keys| - 1]) + if keys[|keys| - 1].Some? then 1 else 0
  }

  lemma {:induction false} GroupSizesGrow(nodes: seq<CommitCheckpoint>, keys: seq<Option<int>>, ids: seq<int>)
    requires |nodes| == |keys| > 0 && Distinct(ids)
    ensures var n := |keys| - 1;
            GroupSizes(nodes, keys, ids) ==
            GroupSizes(nodes[..n], keys[..n], ids) +
            if keys[n].Some? && keys[n].value in ids then 1 else 0
  {
    if ids != [] {
      GroupSizesGrow(nodes, keys, ids[..|ids| - 1]);
      assert ids == ids[..|ids| - 1] + [ids[|ids| - 1]];
    }
  }

  // The groups partition the nodes that have a key: together they are as many, each group
  // holds exactly the nodes with its key, and the list of keys has no duplicates.
  lemma {:induction false} GroupsPartition(nodes: seq<CommitCheckpoint>, keys: seq<Option<int>>)
    requires |nodes| == |keys|
    requires Distinct(nodes)
    ensures GroupSizes(nodes, keys, Keys(keys)) == CountKeyed(keys)
    ensures forall i, k :: 0 <= i < |nodes| && k in Keys(keys) ==>
              (nodes[i] in Holders(nodes, keys, k) <==> keys[i] == Some(k))
    ensures Distinct(Keys(keys))
  {
    GroupSizesTotal(nodes, keys, Keys(keys));
    forall k | k in Keys(keys)
      ensures forall i :: 0 <= i < |nodes| ==> (nodes[i] in Holders(nodes, keys, k) <==> keys[i] == Some(k))
    {
      HoldersMembers(nodes, keys, k);
    }
  }

  lemma {:induction false} GroupSizesTotal(nodes: seq<CommitCheckpoint>, keys: seq<Option<int>>, ids: seq<int>)
    requires |nodes| == |keys| && Distinct(ids)
    requires forall k: int :: Some(k) in keys ==> k in ids
    ensures GroupSizes(nodes, keys, ids) == CountKeyed(keys)
  {
    if keys == [] {
      EmptyGroups(nodes, keys, ids);
    } else {
      var n := |keys| - 1;
      assert keys == keys[..n] + [keys[n]];
      GroupSizesTotal(nodes[..n], keys[..n], ids);
      GroupSizesGrow(nodes, keys, ids);
      if keys[n].Some? {
        var k := keys[n].value;
        assert keys[n] == Some(k);
        assert Some(k) in keys;
      }
    }
  }

  lemma {:induction false} EmptyGroups(nodes: seq<CommitCheckpoint>, keys: seq<Option<int>>, ids: seq<int>)
    requires |nodes| == |keys| == 0
    ensures GroupSizes(nodes, keys, ids) == 0
  {
    if ids != [] {
      EmptyGroups(nodes, keys, ids[..|ids| - 1]);
    }
  }

  /** The index a to-one loader builds over the nodes. */
  ghost predicate IsIndex(nodes: seq<CommitCheckpoint>, keys: seq<Option<int>>, ids: seq<int>, nodeids: map<int, seq<CommitCheckpoint>>)
    requires |nodes| == |keys|
  {
    && ids == Keys(keys)
    && (forall k :: k in nodeids <==> k in ids)
    && (forall k :: k in nodeids ==> nodeids[k] == Holders(nodes, keys, k))
  }

  lemma IndexGrows(nodes: seq<CommitCheckpoint>, keys: seq<Option<int>>, i: nat, ids: seq<int>, nodeids: map<int, seq<CommitCheckpoint>>)
    requires |nodes| == |keys| && i < |keys|
    requires IsIndex(nodes[..i], keys[..i], ids, nodeids)
    ensures keys[i].None? ==> IsIndex(nodes[..i + 1], keys[..i + 1], ids, nodeids)
    ensures keys[i].Some? && keys[i].value !in nodeids ==>
              IsIndex(nodes[..i + 1], keys[..i + 1], ids + [keys[i].value], nodeids[keys[i].value := [nodes[i]]])
    ensures keys[i].Some? && keys[i].value in nodeids ==>
              IsIndex(nodes[..i + 1], keys[..i + 1], ids,
                      nodeids[keys[i].value := nodeids[keys[i].value] + [nodes[i]]])
  {
    var ns, ks := nodes[..i + 1], keys[..i + 1];
    assert ns[..i] == nodes[..i] && ks[..i] == keys[..i];
    assert ks[i] == keys[i] && ns[i] == nodes[i];
    forall k: int
      ensures Holders(ns, ks, k) == Holders(nodes[..i], keys[..i], k) + if keys[i] == Some(k) then [nodes[i]] else []
    {
    }
    if keys[i].Some? && keys[i].value !in nodeids {
      NoHolders(nodes[..i], keys[..i], keys[i].value);
    }
  }

  lemma {:induction false} NoHolders(nodes: seq<CommitCheckpoint>, keys: seq<Option<int>>, k: int)
    requires |nodes| == |keys| && Some(k) !in keys
    ensures Holders(nodes, keys, k) == []
  {
    if keys != [] {
      var n := |keys| - 1;
      assert keys[n] in keys;
      NoHolders(nodes[..n], keys[..n], k);
    }
  }

  // ---------------------------------------------------------------- to-one loaders

  function UserKeys(nodes: seq<CommitCheckpoint>): (keys: seq<Option<int>>)
    ensures |keys| == |nodes|
  {
    seq(|nodes|, i requires 0 <= i < |nodes| => nodes[i].userID)
  }

  function RepoConfigKeys(nodes: seq<CommitCheckpoint>): (keys: seq<Option<int>>)
    ensures |keys| == |nodes|
  {
    seq(|nodes|, i requires 0 <= i < |nodes| => Some(nodes[i].repoConfigID))
  }

  /** The first loop of a to-one loader. */
  method BuildIndex(nodes: seq<CommitCheckpoint>, keys: seq<Option<int>>)
    returns (ids: seq<int>, nodeids: map<int, seq<CommitCheckpoint>>)
    requires |nodes| == |keys|
    ensures IsIndex(nodes, keys, ids, nodeids)
  {
    ids, nodeids := [], map[];
    for i := 0 to |nodes|
      invariant IsIndex(nodes[..i], keys[..i], ids, nodeids)
    {
      IndexGrows(nodes, keys, i, ids, nodeids);
      if keys[i].Some? {
        var fk := keys[i].value;
        if fk !in nodeids {
          ids := ids + [fk];
          nodeids := nodeids[fk := [nodes[i]]];
        } else {
          nodeids := nodeids[fk := nodeids[fk] + [nodes[i]]];
        }
      }
    }
    assert nodes[..|nodes|] == nodes && keys[..|nodes|] == keys;
  }

  /** The effect of handing every row with the node's key to the node, in the order of the rows. */
  function AssignRows(assign: (Edges, Target) -> Edges, edges: Edges, rows: seq<Target>, key: Option<int>): Edges {
    if rows == [] then edges
    else
      var before, last := AssignRows(assign, edges, rows[..|rows| - 1], key), rows[|rows| - 1];
      if key == Some(last.id) then assign(before, last) else before
  }

  lemma {:induction false} BatchedAssign(
      assign: (Edges, Target) -> Edges, edges: Edges, rows: seq<Target>, ids: seq<int>, key: Option<int>)
    requires key.Some? ==> key.value in ids
    ensures AssignRows(assign, edges, WithIDIn(rows, ids), key) == AssignRows(assign, edges, rows, key)
  {
    if rows != [] {
      var init, last := rows[..|rows| - 1], rows[|rows| - 1];
      BatchedAssign(assign, edges, init, ids, key);
      var found := WithIDIn(init, ids);
      assert (found + [last])[..|found|] == found;
    }
  }

  lemma {:induction false} KeysCount(keys: seq<Option<int>>)
    ensures Keys(keys) == [] <==> CountKeyed(keys) == 0
    ensures CountKeyed(keys) == 0 ==> forall i :: 0 <= i < |keys| ==> keys[i].None?
  {
    if keys != [] {
      KeysCount(keys[..|keys| - 1]);
    }
  }

  /** The inner loop of a to-one loader: every node of a group gets the same row. */
  method AssignGroup(group: seq<CommitCheckpoint>, assign: (Edges, Target) -> Edges, n: Target)
    requires Distinct(group)
    modifies set g | g in group
    ensures forall g :: g in group ==> g.edges == assign(old(g.edges), n)
  {
    for j := 0 to |group|
      invariant forall i :: 0 <= i < |group| ==>
        group[i].edges == if i < j then assign(old(group[i].edges), n) else old(group[i].edges)
    {
      group[j].edges := assign(group[j].edges, n);
    }
  }

  /** loadUser and loadRepoConfig, which differ in the keys they read and the edge they set. */
  method LoadToOne(
      query: TargetQuery, nodes: seq<CommitCheckpoint>, keys: seq<Option<int>>, assign: (Edges, Target) -> Edges)
    returns (r: Result<(), QueryError>)
    requires Distinct(nodes) && |keys| == |nodes|
    modifies set n | n in nodes
    ensures r == if query.fails && CountKeyed(keys) > 0 then Err(QueryFailed) else Ok(())
    ensures forall i :: 0 <= i < |nodes| ==>
              nodes[i].edges ==
              if r.Ok? then AssignRows(assign, old(nodes[i].edges), query.rows, keys[i]) else old(nodes[i].edges)
  {
    var ids, nodeids := BuildIndex(nodes, keys);
    KeysCount(keys);
    if |ids| == 0 {
      forall i | 0 <= i < |nodes| ensures AssignRows(assign, nodes[i].edges, query.rows, keys[i]) == nodes[i].edges {
        NoKeyNoRows(assign, nodes[i].edges, query.rows);
      }
      return Ok(());
    }
    if query.fails {
      return Err(QueryFailed);
    }
    var neighbors := WithIDIn(query.rows, ids);
    for k := 0 to |neighbors|
      invariant forall i :: 0 <= i < |nodes| ==>
        nodes[i].edges == AssignRows(assign, old(nodes[i].edges), neighbors[..k], keys[i])
    {
      var n := neighbors[k];
      assert n in neighbors;
      if n.id !in nodeids {
        assert false;
        return Err(UnexpectedForeignKey(n.id));
      }
      var group := nodeids[n.id];
      assert group == Holders(nodes, keys, n.id);
      HoldersMembers(nodes, keys, n.id);
      HoldersDistinct(nodes, keys, n.id);
      AssignGroup(group, assign, n);
      assert neighbors[..k + 1][..k] == neighbors[..k];
    }
    assert neighbors[..|neighbors|] == neighbors;
    forall i | 0 <= i < |nodes|
      ensures AssignRows(assign, old(nodes[i].edges), neighbors, keys[i]) ==
              AssignRows(assign, old(nodes[i].edges), query.rows, keys[i])
    {
      assert keys[i] in keys;
      BatchedAssign(assign, old(nodes[i].edges), query.rows, ids, keys[i]);
    }
    return Ok(());
  }

  lemma {:induction false} NoKeyNoRows(assign: (Edges, Target) -> Edges, edges: Edges, rows: seq<Target>)
    ensures AssignRows(assign, edges, rows, None) == edges
  {
    if rows != [] {
      NoKeyNoRows(assign, edges, rows[..|rows| - 1]);
    }
  }

  // ---------------------------------------------------------------- to-many loaders

  function IDs(nodes: seq<CommitCheckpoint>): (ids: seq<int>)
    ensures |ids| == |nodes|
    ensures forall i :: 0 <= i < |nodes| ==> ids[i] == nodes[i].id
  {
    seq(|nodes|, i requires 0 <= i < |nodes| => nodes[i].id)
  }

  /** The effect of handing a node its children one by one. */
  function AssignChildren(assign: (Edges, Child) -> Edges, edges: Edges, rows: seq<Child>, id: int): Edges {
    if rows == [] then edges
    else
      var before, last := AssignChildren(assign, edges, rows[..|rows| - 1], id), rows[|rows| - 1];
      if last.commitCheckpointID == Some(id) then assign(before, last) else before
  }

  lemma {:induction false} BatchedAssignChildren(
      assign: (Edges, Child) -> Edges, edges: Edges, rows: seq<Child>, ids: seq<int>, id: int)
    requires id in ids
    ensures AssignChildren(assign, edges, WithCheckpointIn(rows, ids), id) == AssignChildren(assign, edges, rows, id)
  {
    if rows != [] {
      var init, last := rows[..|rows| - 1], rows[|rows| - 1];
      BatchedAssignChildren(assign, edges, init, ids, id);
      var found := WithCheckpointIn(init, ids);
      assert (found + [last])[..|found|] == found;
    }
  }

  /** The map from an id to its node: of nodes that repeat an id, the last one. */
  ghost predicate IsNodeMap(nodes: seq<CommitCheckpoint>, nodeids: map<int, CommitCheckpoint>) {
    && (forall i :: 0 <= i < |nodes| ==> nodes[i].id in nodeids)
    && (forall k :: k in nodeids ==> nodeids[k] in nodes && nodeids[k].id == k)
    && (forall i :: 0 <= i < |nodes| ==> (nodeids[nodes[i].id] == nodes[i] <==> IsLast(IDs(nodes), i)))
  }

  lemma NodeMapGrows(nodes: seq<CommitCheckpoint>, nodeids: map<int, CommitCheckpoint>, n: CommitCheckpoint)
    requires IsNodeMap(nodes, nodeids) && Distinct(nodes + [n])
    ensures IsNodeMap(nodes + [n], nodeids[n.id := n])
  {
    var all, grown := nodes + [n], nodeids[n.id := n];
    var ids := IDs(nodes);
    assert IDs(all) == ids + [n.id];
    forall i | 0 <= i < |nodes|
      ensures grown[all[i].id] == all[i] <==> IsLast(IDs(all), i)
    {
      assert all[i] == nodes[i] && all[|nodes|] == n;
      assert (ids + [n.id])[i + 1..] == ids[i + 1..] + [n.id];
    }
    assert (ids + [n.id])[|nodes| + 1..] == [];
  }

  // The node a key is mapped to is the last one with that id, and no other.
  lemma OwnerOfKey(nodes: seq<CommitCheckpoint>, nodeids: map<int, CommitCheckpoint>, key: int)
    requires IsNodeMap(nodes, nodeids) && key in nodeids
    ensures forall i :: 0 <= i < |nodes| ==>
              (nodes[i] == nodeids[key] <==> IsLast(IDs(nodes), i) && nodes[i].id == key)
  {
  }

  /** The first loop of a to-many loader. */
  method BuildNodeMap(nodes: seq<CommitCheckpoint>, init: Edges -> Edges)
    returns (fks: seq<int>, nodeids: map<int, CommitCheckpoint>)
    requires Distinct(nodes)
    modifies set n | n in nodes
    ensures fks == IDs(nodes) && IsNodeMap(nodes, nodeids)
    ensures forall i :: 0 <= i < |nodes| ==> nodes[i].edges == init(old(nodes[i].edges))
  {
    fks, nodeids := [], map[];
    for i := 0 to |nodes|
      invariant fks == IDs(nodes[..i]) && IsNodeMap(nodes[..i], nodeids)
      invariant forall j :: 0 <= j < |nodes| ==>
        nodes[j].edges == if j < i then init(old(nodes[j].edges)) else old(nodes[j].edges)
    {
      assert nodes[..i + 1] == nodes[..i] + [nodes[i]];
      NodeMapGrows(nodes[..i], nodeids, nodes[i]);
      fks := fks + [nodes[i].id];
      nodeids := nodeids[nodes[i].id := nodes[i]];
      nodes[i].edges := init(nodes[i].edges);
    }
    assert nodes[..|nodes|] == nodes;
  }

  /** The second loop of a to-many loader. */
  method HandOutChildren(
      nodes: seq<CommitCheckpoint>, nodeids: map<int, CommitCheckpoint>, neighbors: seq<Child>,
      assign: (Edges, Child) -> Edges)
    returns (r: Result<(), QueryError>)
    requires Distinct(nodes) && IsNodeMap(nodes, nodeids)
    requires forall n :: n in neighbors ==> n.commitCheckpointID.Some? && n.commitCheckpointID.value in nodeids
    modifies set n | n in nodes
    ensures r == Ok(())
    ensures forall i :: 0 <= i < |nodes| ==>
              nodes[i].edges ==
              if IsLast(IDs(nodes), i) then AssignChildren(assign, old(nodes[i].edges), neighbors, nodes[i].id)
              else old(nodes[i].edges)
  {
    for k := 0 to |neighbors|
      invariant forall i :: 0 <= i < |nodes| ==>
        nodes[i].edges ==
        if IsLast(IDs(nodes), i) then AssignChildren(assign, old(nodes[i].edges), neighbors[..k], nodes[i].id)
        else old(nodes[i].edges)
    {
      var n := neighbors[k];
      assert n in neighbors;
      assert neighbors[..k + 1][..k] == neighbors[..k];
      var fk := n.commitCheckpointID;
      if fk.None? {
        assert false;
        return Err(NilForeignKey(n.id));
      }
      var key := fk.value;
      if key !in nodeids {
        assert false;
        return Err(UnexpectedForeignKey(key));
      }
      var node := nodeids[key];
      OwnerOfKey(nodes, nodeids, key);
      node.edges := assign(node.edges, n);
    }
    assert neighbors[..|neighbors|] == neighbors;
    return Ok(());
  }

  /** loadToolUsageEvents and loadPrCommitUsageSnapshots, which differ in the edge they set. */
  method LoadToMany(
      query: ChildQuery, nodes: seq<CommitCheckpoint>, init: Edges -> Edges, assign: (Edges, Child) -> Edges)
    returns (r: Result<(), QueryError>)
    requires Distinct(nodes)
    modifies set n | n in nodes
    ensures r == if query.fails then Err(QueryFailed) else Ok(())
    ensures forall i :: 0 <= i < |nodes| ==>
              nodes[i].edges ==
              if r.Ok? && IsLast(IDs(nodes), i)
              then AssignChildren(assign, init(old(nodes[i].edges)), query.rows, nodes[i].id)
              else init(old(nodes[i].edges))
  {
    var fks, nodeids := BuildNodeMap(nodes, init);
    var fields := query.fields;
    if |fields| > 0 {
      fields := AppendFieldOnce(fields, FIELD_COMMIT_CHECKPOINT_ID);
    }
    if query.fails {
      return Err(QueryFailed);
    }
    var neighbors := ScanChildren(WithCheckpointIn(query.rows, fks), fields);
    assert neighbors == WithCheckpointIn(query.rows, fks);
    r := HandOutChildren(nodes, nodeids, neighbors, assign);
    forall i | 0 <= i < |nodes|
      ensures AssignChildren(assign, init(old(nodes[i].edges)), neighbors, nodes[i].id) ==
              AssignChildren(assign, init(old(nodes[i].edges)), query.rows, nodes[i].id)
    {
      assert fks[i] in fks;
      BatchedAssignChildren(assign, init(old(nodes[i].edges)), query.rows, fks, nodes[i].id);
    }
  }

  // ---------------------------------------------------------------- the four edges

  function SetUser(edges: Edges, row: User): Edges {
    edges.(user := Some(row))
  }

  function SetRepoConfig(edges: Edges, row: RepoConfig): Edges {
    edges.(repoConfig := Some(row))
  }

  function InitToolUsageEvents(edges: Edges): Edges {
    edges.(toolUsageEvents := Some([]))
  }

  function AddToolUsageEvent(edges: Edges, row: ToolUsageEvent): Edges {
    edges.(toolUsageEvents := Some((if edges.toolUsageEvents.Some? then edges.toolUsageEvents.value else []) + [row]))
  }

  function InitPrCommitUsageSnapshots(edges: Edges): Edges {
    edges.(prCommitUsageSnapshots := Some([]))
  }

  function AddPrCommitUsageSnapshot(edges: Edges, row: PRCommitUsageSnapshot): Edges {
    edges.(prCommitUsageSnapshots :=
      Some((if edges.prCommitUsageSnapshots.Some? then edges.prCommitUsageSnapshots.value else []) + [row]))
  }

  lemma {:induction false} UsersAssigned(edges: Edges, rows: seq<Target>, key: Option<int>)
    ensures AssignRows(SetUser, edges, rows, key) ==
            var row := Lookup(rows, key); if row.Some? then edges.(user := row) else edges
  {
    if rows != [] {
      UsersAssigned(edges, rows[..|rows| - 1], key);
    }
    if key.None? {
      NoKeyNoRows(SetUser, edges, rows);
    }
  }

  lemma {:induction false} RepoConfigsAssigned(edges: Edges, rows: seq<Target>, key: Option<int>)
    ensures AssignRows(SetRepoConfig, edges, rows, key) ==
            var row := Lookup(rows, key); if row.Some? then edges.(repoConfig := row) else edges
  {
    if rows != [] {
      RepoConfigsAssigned(edges, rows[..|rows| - 1], key);
    }
    if key.None? {
      NoKeyNoRows(SetRepoConfig, edges, rows);
    }
  }

  lemma {:induction false} ToolUsageEventsAssigned(edges: Edges, rows: seq<Child>, id: int)
    ensures AssignChildren(AddToolUsageEvent, InitToolUsageEvents(edges), rows, id) ==
            edges.(toolUsageEvents := Some(ChildrenOf(rows, id)))
  {
    if rows != [] {
      ToolUsageEventsAssigned(edges, rows[..|rows| - 1], id);
    }
  }

  lemma {:induction false} PrCommitUsageSnapshotsAssigned(edges: Edges, rows: seq<Child>, id: int)
    ensures AssignChildren(AddPrCommitUsageSnapshot, InitPrCommitUsageSnapshots(edges), rows, id) ==
            edges.(prCommitUsageSnapshots := Some(ChildrenOf(rows, id)))
  {
    if rows != [] {
      PrCommitUsageSnapshotsAssigned(edges, rows[..|rows| - 1], id);
    }
  }

  // ---------------------------------------------------------------- the four loaders

  method LoadUser(query: TargetQuery, nodes: seq<CommitCheckpoint>) returns (r: Result<(), QueryError>)
    requires Distinct(nodes)
    modifies set n | n in nodes
    ensures r == if query.fails && CountKeyed(UserKeys(nodes)) > 0 then Err(QueryFailed) else Ok(())
    ensures forall i :: 0 <= i < |nodes| ==>
              nodes[i].edges ==
              if r.Ok? && Lookup(query.rows, nodes[i].userID).Some?
              then old(nodes[i].edges).(user := Lookup(query.rows, nodes[i].userID))
              else old(nodes[i].edges)
  {
    r := LoadToOne(query, nodes, UserKeys(nodes), SetUser);
    forall i | 0 <= i < |nodes|
      ensures nodes[i].edges ==
              if r.Ok? && Lookup(query.rows, nodes[i].userID).Some?
              then old(nodes[i].edges).(user := Lookup(query.rows, nodes[i].userID))
              else old(nodes[i].edges)
    {
      UsersAssigned(old(nodes[i].edges), query.rows, nodes[i].userID);
    }
  }

  method LoadRepoConfig(query: TargetQuery, nodes: seq<CommitCheckpoint>) returns (r: Result<(), QueryError>)
    requires Distinct(nodes)
    modifies set n | n in nodes
    ensures r == if query.fails && nodes != [] then Err(QueryFailed) else Ok(())
    ensures forall i :: 0 <= i < |nodes| ==>
              nodes[i].edges ==
              if r.Ok? && Lookup(query.rows, Some(nodes[i].repoConfigID)).Some?
              then old(nodes[i].edges).(repoConfig := Lookup(query.rows, Some(nodes[i].repoConfigID)))
              else old(nodes[i].edges)
  {
    KeyedRepoConfigs(nodes);
    r := LoadToOne(query, nodes, RepoConfigKeys(nodes), SetRepoConfig);
    forall i | 0 <= i < |nodes|
      ensures nodes[i].edges ==
              if r.Ok? && Lookup(query.rows, Some(nodes[i].repoConfigID)).Some?
              then old(nodes[i].edges).(repoConfig := Lookup(query.rows, Some(nodes[i].repoConfigID)))
              else old(nodes[i].edges)
    {
      RepoConfigsAssigned(old(nodes[i].edges), query.rows, Some(nodes[i].repoConfigID));
    }
  }

  method LoadToolUsageEvents(query: ChildQuery, nodes: seq<CommitCheckpoint>) returns (r: Result<(), QueryError>)
    requires Distinct(nodes)
    modifies set n | n in nodes
    ensures r == if query.fails then Err(QueryFailed) else Ok(())
    ensures forall i :: 0 <= i < |nodes| ==>
              nodes[i].edges == old(nodes[i].edges).(toolUsageEvents := Some(
                if r.Ok? && IsLast(IDs(nodes), i) then ChildrenOf(query.rows, nodes[i].id) else []))
    ensures r.Ok? ==> forall i :: 0 <= i < |nodes| && IsLast(IDs(nodes), i) ==>
              InFetchOrder(query.rows, nodes[i].id, nodes[i].edges.toolUsageEvents.value)
  {
    r := LoadToMany(query, nodes, InitToolUsageEvents, AddToolUsageEvent);
    forall i | 0 <= i < |nodes|
      ensures nodes[i].edges == old(nodes[i].edges).(toolUsageEvents := Some(
                if r.Ok? && IsLast(IDs(nodes), i) then ChildrenOf(query.rows, nodes[i].id) else []))
      ensures InFetchOrder(query.rows, nodes[i].id, ChildrenOf(query.rows, nodes[i].id))
    {
      ToolUsageEventsAssigned(old(nodes[i].edges), query.rows, nodes[i].id);
      ChildrenInFetchOrder(query.rows, nodes[i].id);
    }
  }

  method LoadPrCommitUsageSnapshots(query: ChildQuery, nodes: seq<CommitCheckpoint>)
    returns (r: Result<(), QueryError>)
    requires Distinct(nodes)
    modifies set n | n in nodes
    ensures r == if query.fails then Err(QueryFailed) else Ok(())
    ensures forall i :: 0 <= i < |nodes| ==>
              nodes[i].edges == old(nodes[i].edges).(prCommitUsageSnapshots := Some(
                if r.Ok? && IsLast(IDs(nodes), i) then ChildrenOf(query.rows, nodes[i].id) else []))
    ensures r.Ok? ==> forall i :: 0 <= i < |nodes| && IsLast(IDs(nodes), i) ==>
              InFetchOrder(query.rows, nodes[i].id, nodes[i].edges.prCommitUsageSnapshots.value)
  {
    r := LoadToMany(query, nodes, InitPrCommitUsageSnapshots, AddPrCommitUsageSnapshot);
    forall i | 0 <= i < |nodes|
      ensures nodes[i].edges == old(nodes[i].edges).(prCommitUsageSnapshots := Some(
                if r.Ok? && IsLast(IDs(nodes), i) then ChildrenOf(query.rows, nodes[i].id) else []))
      ensures InFetchOrder(query.rows, nodes[i].id, ChildrenOf(query.rows, nodes[i].id))
    {
      PrCommitUsageSnapshotsAssigned(old(nodes[i].edges), query.rows, nodes[i].id);
      ChildrenInFetchOrder(query.rows, nodes[i].id);
    }
  }

  lemma {:induction false} KeyedRepoConfigs(nodes: seq<CommitCheckpoint>)
    ensures CountKeyed(RepoConfigKeys(nodes)) == |nodes|
  {
    if nodes != [] {
      var init := nodes[..|nodes| - 1];
      KeyedRepoConfigs(init);
      assert RepoConfigKeys(nodes)[..|init|] == RepoConfigKeys(init);
    }
  }
}
