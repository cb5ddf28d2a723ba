/** First, Only, OnlyID, IDs and Exist on the query builder of commit checkpoints. */
module SingleResults {
  import opened Results
  import opened Selections

  datatype Row = Row(id: int, commitSha: string)

  /** Rows of one table, in some order and perhaps repeated: rows with the same id are the same row. */
  type Rows = rows: seq<Row> | forall i, j :: 0 <= i < j < |rows| && rows[i].id == rows[j].id ==> rows[i] == rows[j]

  /** `ColumnsDoNotMatch`: the scan into a slice of ids met this many columns. */
  datatype QueryError = QueryFailed | ColumnsDoNotMatch(columns: nat) | NotFound | NotSingular

  const FIELD_ID := "id"

  /** SELECT DISTINCT. */
  function Dedup<T(==)>(s: seq<T>): seq<T> {
    if s == [] then []
    else
      var init, last := Dedup(s[..|s| - 1]), s[|s| - 1];
      if last in init then init else init + [last]
  }

  function RowIDs(rows: seq<Row>): (ids: seq<int>)
    ensures |ids| == |rows| && forall i :: 0 <= i < |rows| ==> ids[i] == rows[i].id
  {
    seq(|rows|, i requires 0 <= i < |rows| => rows[i].id)
  }

  function Skip<T>(s: seq<T>, offset: Option<nat>): seq<T> {
    if offset.None? then s else if offset.value <= |s| then s[offset.value..] else []
  }

  function Take<T>(s: seq<T>, limit: Option<nat>): seq<T> {
    if limit.Some? && limit.value < |s| then s[..limit.value] else s
  }

  lemma {:induction false} DedupMembers<T>(s: seq<T>)
    ensures forall x :: x in Dedup(s) <==> x in s
  {
    if s != [] {
      DedupMembers(s[..|s| - 1]);
      assert s == s[..|s| - 1] + [s[|s| - 1]];
    }
  }

  // DISTINCT keeps of every element its first occurrence, in order.
  lemma {:induction false} DedupMeaning<T>(s: seq<T>) returns (at: seq<nat>)
    ensures PartAt(s, Dedup(s), at)
    ensures forall k :: 0 <= k < |s| ==> (k in at <==> s[k] !in s[..k])
  {
    if s == [] {
      at := [];
    } else {
      at := DedupMeaning(s[..|s| - 1]);
      at := LastOccurrence(s, at);
    }
  }

  lemma LastOccurrence<T>(s: seq<T>, at: seq<nat>) returns (all: seq<nat>)
    requires s != []
    requires PartAt(s[..|s| - 1], Dedup(s[..|s| - 1]), at)
    requires forall k :: 0 <= k < |s| - 1 ==> (k in at <==> s[..|s| - 1][k] !in s[..|s| - 1][..k])
    ensures PartAt(s, Dedup(s), all)
    ensures forall k :: 0 <= k < |s| ==> (k in all <==> s[k] !in s[..k])
  {
    var n := |s| - 1;
    var init := s[..n];
    DedupMembers(init);
    PartGrows(init, Dedup(init), at, s[n]);
    assert s == init + [s[n]];
    all := if s[n] in init then at else at + [n];
    forall k | 0 <= k < n
      ensures k in all <==> s[k] !in s[..k]
    {
      assert init[k] == s[k] && init[..k] == s[..k];
    }
  }

  // A page is what follows the offset, as far as the limit goes.
  lemma PageMeaning<T>(s: seq<T>, offset: Option<nat>, limit: Option<nat>)
    ensures var page, from := Take(Skip(s, offset), limit), if offset.Some? then offset.value else 0;
            && (from >= |s| ==> page == [])
            && (from < |s| ==> |page| == (if limit.Some? && limit.value < |s| - from then limit.value else |s| - from))
            && forall k :: 0 <= k < |page| ==> page[k] == s[from + k]
  {
  }

  // The id is a key, so rows that are distinct without it are distinct with nothing but it.
  lemma {:induction false} DistinctByID(rows: Rows)
    ensures RowIDs(Dedup(rows)) == Dedup(RowIDs(rows))
  {
    if rows != [] {
      var init, last := rows[..|rows| - 1], rows[|rows| - 1];
      DistinctByID(init);
      DedupMembers(init);
      assert rows == init + [last];
      assert RowIDs(rows)[..|rows| - 1] == RowIDs(init);
      var kept := Dedup(init);
      if last.id in RowIDs(kept) {
        var i :| 0 <= i < |kept| && kept[i].id == last.id;
        assert kept[i] in init;
        var j :| 0 <= j < |init| && init[j] == kept[i];
        assert rows[j] == last;
      }
    }
  }

  lemma IDsOfPart(rows: seq<Row>, offset: Option<nat>, limit: Option<nat>)
    ensures Take(Skip(RowIDs(rows), offset), limit) == RowIDs(Take(Skip(rows, offset), limit))
  {
  }

  class CheckpointQuery {
    /** The rows the predicates and the path select, in the order asked for. */
    const matches: Rows
    /** Whether the query continues from another one. */
    const hasPath: bool
    var fields: seq<string>
    var unique: Option<bool>
    var limit: Option<nat>
    var offset: Option<nat>

    constructor (matches: Rows, hasPath: bool)
      ensures this.matches == matches && this.hasPath == hasPath
      ensures fields == [] && unique == None && limit == None && offset == None
    {
      this.matches, this.hasPath := matches, hasPath;
      fields, unique, limit, offset := [], None, None, None;
    }

    predicate Distinct()
      reads this
    {
      unique == Some(true) || (unique.None? && hasPath)
    }

    /** The result without any limit. */
    function Unlimited(): seq<Row>
      reads this
    {
      Skip(if Distinct() then Dedup(matches) else matches, offset)
    }

    // The unlimited result: what follows the offset of the matching rows, or of their first
    // occurrences when the query is marked unique, or continues from another and is not marked.
    lemma UnlimitedMeaning()
      ensures unique == Some(false) || (unique.None? && !hasPath) ==> Unlimited() == Skip(matches, offset)
      ensures unique == Some(true) || (unique.None? && hasPath) ==> Unlimited() == Skip(Dedup(matches), offset)
    {
    }

    /** Select adds to the fields that are already selected. */
    method Select(names: seq<string>)
      modifies this`fields
      ensures fields == old(fields) + names
    {
      fields := fields + names;
    }

    method All(fails: bool) returns (r: Result<seq<Row>, QueryError>)
      ensures r == if fails then Err(QueryFailed) else Ok(Take(Unlimited(), limit))
    {
      if fails {
        return Err(QueryFailed);
      }
      var distinct := false;
      if unique.Some? {
        distinct := unique.value;
      } else if hasPath {
        distinct := true;
      }
      var rows := if distinct then Dedup(matches) else matches;
      if offset.Some? {
        rows := if offset.value <= |rows| then rows[offset.value..] else [];
      }
      return Ok(Take(rows, limit));
    }

    /** Scan, after the selection: one column is read for each selected field, and an id has room for one. */
    method ScanIDs(fails: bool) returns (r: Result<seq<int>, QueryError>)
      requires FIELD_ID in fields
      ensures r == if fails then Err(QueryFailed)
                   else if |fields| > 1 then Err(ColumnsDoNotMatch(|fields|))
                   else Ok(Take(Skip(if unique == Some(true) then Dedup(RowIDs(matches)) else RowIDs(matches), offset), limit))
    {
      if fails {
        return Err(QueryFailed);
      }
      if |fields| > 1 {
        return Err(ColumnsDoNotMatch(|fields|));
      }
      var ids := RowIDs(matches);
      if unique.Some? && unique.value {
        ids := Dedup(ids);
      }
      return Ok(Take(Skip(ids, offset), limit));
    }

    /**
      Leaves the id selected and, on a path, the query marked unique. A field that was selected
      before makes it fail.
     */
    method IDs(fails: bool) returns (r: Result<seq<int>, QueryError>)
      modifies this`fields, this`unique
      ensures fields == old(fields) + [FIELD_ID]
      ensures unique == if old(unique).None? && hasPath then Some(true) else old(unique)
      ensures Unlimited() == old(Unlimited())
      ensures r.Err? <==> fails || old(fields) != []
      ensures r.Err? ==> r.error == if fails then QueryFailed else ColumnsDoNotMatch(|old(fields)| + 1)
      ensures r.Ok? ==> r.value == RowIDs(Take(Unlimited(), limit))
    {
      if unique.None? && hasPath {
        unique := Some(true);
      }
      Select([FIELD_ID]);
      r := ScanIDs(fails);
      DistinctByID(matches);
      IDsOfPart(if Distinct() then Dedup(matches) else matches, offset, limit);
    }

    method First(fails: bool) returns (r: Result<Row, QueryError>)
      modifies this`limit
      ensures limit == Some(1)
      ensures fails ==> r == Err(QueryFailed)
      ensures !fails ==> (r == Err(NotFound) <==> Unlimited() == [])
      ensures !fails && Unlimited() != [] ==> r == Ok(Unlimited()[0])
    {
      limit := Some(1);
      var nodes := All(fails);
      if nodes.Err? {
        return Err(nodes.error);
      }
      if |nodes.value| == 0 {
        return Err(NotFound);
      }
      return Ok(nodes.value[0]);
    }

    /** Two rows are enough to know how many rows there are: none, one, or more than one. */
    method Only(fails: bool) returns (r: Result<Row, QueryError>)
      modifies this`limit
      ensures limit == Some(2)
      ensures fails ==> r == Err(QueryFailed)
      ensures !fails ==> (r.Ok? <==> |Unlimited()| == 1)
      ensures !fails && r.Ok? ==> Unlimited() == [r.value]
      ensures !fails ==> (r == Err(NotFound) <==> |Unlimited()| == 0)
      ensures !fails ==> (r == Err(NotSingular) <==> |Unlimited()| >= 2)
    {
      limit := Some(2);
      var nodes := All(fails);
      if nodes.Err? {
        return Err(nodes.error);
      }
      match |nodes.value| {
        case 1 => return Ok(nodes.value[0]);
        case 0 => return Err(NotFound);
        case _ => return Err(NotSingular);
      }
    }

    method OnlyID(fails: bool) returns (r: Result<int, QueryError>)
      modifies this`limit, this`fields, this`unique
      ensures limit == Some(2) && fields == old(fields) + [FIELD_ID]
      ensures Unlimited() == old(Unlimited())
      ensures fails ==> r == Err(QueryFailed)
      ensures !fails && old(fields) != [] ==> r == Err(ColumnsDoNotMatch(|old(fields)| + 1))
      ensures !fails && old(fields) == [] ==>
                && (r.Ok? <==> |Unlimited()| == 1)
                && (r.Ok? ==> r.value == Unlimited()[0].id)
                && (r == Err(NotFound) <==> |Unlimited()| == 0)
                && (r == Err(NotSingular) <==> |Unlimited()| >= 2)
    {
      limit := Some(2);
      var ids := IDs(fails);
      if ids.Err? {
        return Err(ids.error);
      }
      match |ids.value| {
        case 1 => return Ok(ids.value[0]);
        case 0 => return Err(NotFound);
        case _ => return Err(NotSingular);
      }
    }

    method FirstID(fails: bool) returns (r: Result<int, QueryError>)
      modifies this`limit, this`fields, this`unique
      ensures limit == Some(1) && fields == old(fields) + [FIELD_ID]
      ensures Unlimited() == old(Unlimited())
      ensures fails ==> r == Err(QueryFailed)
      ensures !fails && old(fields) != [] ==> r == Err(ColumnsDoNotMatch(|old(fields)| + 1))
      ensures !fails && old(fields) == [] ==>
                r == if Unlimited() == [] then Err(NotFound) else Ok(Unlimited()[0].id)
    {
      limit := Some(1);
      var ids := IDs(fails);
      if ids.Err? {
        return Err(ids.error);
      }
      if |ids.value| == 0 {
        return Err(NotFound);
      }
      return Ok(ids.value[0]);
    }

    /** The limit and the selected id stay behind. */
    method Exist(fails: bool) returns (r: Result<bool, QueryError>)
      modifies this`limit, this`fields, this`unique
      ensures limit == Some(1) && fields == old(fields) + [FIELD_ID]
      ensures Unlimited() == old(Unlimited()) && |Take(Unlimited(), limit)| <= 1
      ensures r.Err? <==> fails || old(fields) != []
      ensures r.Err? ==> r.error == if fails then QueryFailed else ColumnsDoNotMatch(|old(fields)| + 1)
      ensures r.Ok? ==> r.value == (Unlimited() != [])
    {
      var id := FirstID(fails);
      if id == Err(NotFound) {
        return Ok(false);
      }
      if id.Err? {
        return Err(id.error);
      }
      return Ok(true);
    }
  }

  // A query answers Exist once: the second call on it fails, whatever its first answer was.
  method ExistTwice(q: CheckpointQuery, fails: bool) returns (first: Result<bool, QueryError>, second: Result<bool, QueryError>)
    modifies q
    ensures old(q.fields) == [] && !fails ==> first == Ok(old(q.Unlimited()) != [])
    ensures second == Err(ColumnsDoNotMatch(|old(q.fields)| + 2))
  {
    first := q.Exist(fails);
    second := q.Exist(false);
  }

  // Listing the rows themselves still works after it, but lists one row at most.
  method AllAfterExist(q: CheckpointQuery) returns (rows: Result<seq<Row>, QueryError>)
    modifies q
    ensures rows == Ok(Take(old(q.Unlimited()), Some(1)))
  {
    var _ := q.Exist(false);
    rows := q.All(false);
  }
}
