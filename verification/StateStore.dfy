/** The store of responses (src/state.rs): one row for each response id, forgotten after a time to live. */
module StateStore {
  import opened Wrappers
  import opened ToolHistory
  import opened Items

  type Rows = map<string, StoredResponse>

  ghost predicate KeyedById(rows: Rows) {
    forall id :: id in rows ==> rows[id].responseId == id
  }

  predicate Unexpired(rows: Rows, cutoff: int, id: string) {
    id in rows && rows[id].createdAt >= cutoff
  }

  predicate Pending(rows: Rows, id: string, callId: string)
    requires id in rows
  {
    callId in rows[id].pendingCallIds
  }

  /** An unexpired response that holds all wanted ids as pending, while no other unexpired response holds any. */
  ghost predicate IsUniqueHolder(rows: Rows, cutoff: int, wanted: set<string>, id: string) {
    && Unexpired(rows, cutoff, id)
    && (forall c :: c in wanted ==> Pending(rows, id, c))
    && (forall other, c :: Unexpired(rows, cutoff, other) && other != id && c in wanted ==> !Pending(rows, other, c))
  }

  lemma UniqueHolderIsUnique(rows: Rows, cutoff: int, wanted: set<string>, a: string, b: string)
    requires wanted != {} && IsUniqueHolder(rows, cutoff, wanted, a) && IsUniqueHolder(rows, cutoff, wanted, b)
    ensures a == b
  {
    var c :| c in wanted;
    assert Pending(rows, a, c) && Pending(rows, b, c);
  }

  ghost function FindUnique(rows: Rows, cutoff: int, callIds: seq<string>): (r: Option<StoredResponse>)
    ensures r.Some? ==>
              callIds != [] && exists id :: IsUniqueHolder(rows, cutoff, ToSet(callIds), id) && r.value == rows[id]
    ensures forall id :: callIds != [] && IsUniqueHolder(rows, cutoff, ToSet(callIds), id) ==> r == Some(rows[id])
  {
    if callIds != [] && exists id :: IsUniqueHolder(rows, cutoff, ToSet(callIds), id) then
      var id :| IsUniqueHolder(rows, cutoff, ToSet(callIds), id);
      assert callIds[0] in ToSet(callIds);
      assert forall other :: IsUniqueHolder(rows, cutoff, ToSet(callIds), other) ==> other == id by {
        forall other | IsUniqueHolder(rows, cutoff, ToSet(callIds), other) ensures other == id {
          UniqueHolderIsUnique(rows, cutoff, ToSet(callIds), other, id);
        }
      }
      Some(rows[id])
    else None
  }

  function Lookup(rows: Rows, cutoff: int, id: string): Option<StoredResponse> {
    if Unexpired(rows, cutoff, id) then Some(rows[id]) else None
  }

  class Store {
    var rows: Rows
    const ttl: int

    constructor (ttl: int)
      ensures rows == map[] && this.ttl == ttl
    {
      rows := map[];
      this.ttl := ttl;
    }

    /** `works` is whether the database accepts the write. */
    method Put(item: StoredResponse, works: bool) returns (ok: bool)
      modifies this
      ensures ok == works
      ensures rows == if works then old(rows)[item.responseId := item] else old(rows)
    {
      if works {
        rows := rows[item.responseId := item];
      }
      return works;
    }

    method Get(responseId: string, now: int) returns (found: Option<StoredResponse>)
      ensures found == Lookup(rows, now - ttl, responseId)
    {
      var cutoff := now - ttl;
      if responseId in rows && rows[responseId].createdAt >= cutoff {
        return Some(rows[responseId]);
      }
      return None;
    }

    /** Rows and wanted ids are visited in an arbitrary order. */
    method FindByCallIds(callIds: seq<string>, now: int) returns (found: Option<StoredResponse>)
      ensures callIds == [] ==> found == None
      ensures found == FindUnique(rows, now - ttl, callIds)
    {
      hide MatchesVisited, UniqueOfVisited, IsUniqueHolder, FindUnique, Pending, ToSet;
      if callIds == [] {
        return None;
      }
      var cutoff := now - ttl;
      var wanted := ToSet(callIds);
      FirstIsWanted(callIds);
      var remaining := set id | id in rows && rows[id].createdAt >= cutoff;
      ghost var visited: set<string> := {};
      var matchedByCallId: map<string, string> := map[];
      var unique: Option<string> := None;
      NothingVisited(rows, wanted);
      while remaining != {}
        invariant visited !! remaining
        invariant forall id :: id in visited + remaining <==> Unexpired(rows, cutoff, id)
        invariant MatchesVisited(rows, wanted, visited, matchedByCallId)
        invariant UniqueOfVisited(rows, wanted, visited, unique)
        decreases remaining
      {
        var id :| id in remaining;
        var pending := ToSet(rows[id].pendingCallIds);
        var conflict, intersects, matched := MatchRow(wanted, pending, id, matchedByCallId);
        if conflict.Some? {
          ConflictMeansNone(rows, cutoff, wanted, visited, matchedByCallId, conflict.value, id);
          return None;
        }
        VisitedOneMore(rows, wanted, visited, matchedByCallId, matched, id);
        UniqueAfter(rows, wanted, visited, unique, id);
        matchedByCallId := matched;
        if intersects && wanted <= pending {
          if unique.Some? && unique.value != id {
            TwoHoldersMeanNone(rows, cutoff, wanted, visited, unique, id);
            return None;
          }
          unique := Some(id);
        }
        visited := visited + {id};
        remaining := remaining - {id};
      }
      AllVisited(rows, cutoff, wanted, visited, matchedByCallId, unique);
      if |matchedByCallId| == |wanted| {
        return if unique.Some? then Some(rows[unique.value]) else None;
      }
      return None;
    }
  }

  lemma FirstIsWanted(callIds: seq<string>)
    requires callIds != []
    ensures callIds[0] in ToSet(callIds)
  {
  }

  /** The wanted ids pending in one row, visited in an arbitrary order; a conflict is one already matched elsewhere. */
  method MatchRow(wanted: set<string>, pending: set<string>, id: string, matchedByCallId: map<string, string>)
      returns (conflict: Option<string>, intersects: bool, matched: map<string, string>)
    ensures conflict.Some? ==> conflict.value in wanted && conflict.value in pending
                               && conflict.value in matchedByCallId && matchedByCallId[conflict.value] != id
    ensures conflict.None? ==>
              && (intersects <==> exists c :: c in wanted && c in pending)
              && matched.Keys == matchedByCallId.Keys + wanted * pending
              && (forall c :: c in matchedByCallId ==> matched[c] == matchedByCallId[c])
              && (forall c :: c in wanted * pending ==> matched[c] == id)
  {
    conflict, intersects, matched := None, false, matchedByCallId;
    var left := wanted;
    while left != {}
      invariant left <= wanted
      invariant intersects <==> exists c :: c in wanted - left && c in pending
      invariant matched.Keys == matchedByCallId.Keys + (wanted - left) * pending
      invariant forall c :: c in matchedByCallId ==> matched[c] == matchedByCallId[c]
      invariant forall c :: c in (wanted - left) * pending ==> matched[c] == id
      decreases left
    {
      var c :| c in left;
      left := left - {c};
      if c !in pending {
        continue;
      }
      intersects := true;
      if c in matched {
        if matched[c] != id {
          return Some(c), intersects, matched;
        }
      } else {
        matched := matched[c := id];
      }
    }
    assert wanted - left == wanted;
  }

  lemma ConflictMeansNone(rows: Rows, cutoff: int, wanted: set<string>, visited: set<string>,
                          matched: map<string, string>, c: string, id: string)
    requires MatchesVisited(rows, wanted, visited, matched) && c in matched && matched[c] != id
    requires forall other :: other in visited ==> Unexpired(rows, cutoff, other)
    requires Unexpired(rows, cutoff, id) && c in ToSet(rows[id].pendingCallIds)
    ensures forall other :: !IsUniqueHolder(rows, cutoff, wanted, other)
  {
    NoUniqueHolder(rows, cutoff, wanted, c, matched[c], id);
  }

  lemma TwoHoldersMeanNone(rows: Rows, cutoff: int, wanted: set<string>, visited: set<string>, unique: Option<string>,
                           id: string)
    requires UniqueOfVisited(rows, wanted, visited, unique) && unique.Some? && unique.value != id
    requires forall other :: other in visited ==> Unexpired(rows, cutoff, other)
    requires Unexpired(rows, cutoff, id) && wanted != {} && wanted <= ToSet(rows[id].pendingCallIds)
    ensures forall other :: !IsUniqueHolder(rows, cutoff, wanted, other)
  {
    var c :| c in wanted;
    NoUniqueHolder(rows, cutoff, wanted, c, unique.value, id);
  }

  lemma NothingVisited(rows: Rows, wanted: set<string>)
    ensures MatchesVisited(rows, wanted, {}, map[]) && UniqueOfVisited(rows, wanted, {}, None)
  {
  }

  /** The answer of the loop once every unexpired row has been visited. */
  lemma AllVisited(rows: Rows, cutoff: int, wanted: set<string>, visited: set<string>, matched: map<string, string>,
                   unique: Option<string>)
    requires MatchesVisited(rows, wanted, visited, matched) && UniqueOfVisited(rows, wanted, visited, unique)
    requires forall other :: other in visited <==> Unexpired(rows, cutoff, other)
    ensures if |matched| == |wanted| && unique.Some? then IsUniqueHolder(rows, cutoff, wanted, unique.value)
            else forall id :: !IsUniqueHolder(rows, cutoff, wanted, id)
    ensures unique.Some? ==> unique.value in rows
  {
    UniqueHolderMatchesAll(rows, cutoff, wanted, visited, matched);
    if |matched| == |wanted| && unique.Some? {
      HolderIsUnique(rows, cutoff, wanted, visited, matched, unique.value);
    }
  }

  /** Each wanted id pending somewhere among the visited rows is matched, and by the only such row. */
  ghost predicate MatchesVisited(rows: Rows, wanted: set<string>, visited: set<string>, matched: map<string, string>) {
    && visited <= rows.Keys
    && (forall c :: c in matched ==> c in wanted && matched[c] in visited && Pending(rows, matched[c], c))
    && (forall id, c :: id in visited && c in wanted && Pending(rows, id, c) ==> c in matched && matched[c] == id)
  }

  ghost predicate UniqueOfVisited(rows: Rows, wanted: set<string>, visited: set<string>, unique: Option<string>) {
    && visited <= rows.Keys
    && (unique.Some? ==> unique.value in visited && forall c :: c in wanted ==> Pending(rows, unique.value, c))
    && (unique.None? ==> forall id :: id in visited ==> exists c :: c in wanted && !Pending(rows, id, c))
  }

  lemma NoUniqueHolder(rows: Rows, cutoff: int, wanted: set<string>, c: string, a: string, b: string)
    requires c in wanted && a != b && Unexpired(rows, cutoff, a) && Unexpired(rows, cutoff, b)
    requires Pending(rows, a, c) && Pending(rows, b, c)
    ensures forall id :: !IsUniqueHolder(rows, cutoff, wanted, id)
  {
  }

  lemma HolderIsUnique(rows: Rows, cutoff: int, wanted: set<string>, visited: set<string>, matched: map<string, string>,
                       id: string)
    requires MatchesVisited(rows, wanted, visited, matched) && UniqueOfVisited(rows, wanted, visited, Some(id))
    requires forall other :: other in visited <==> Unexpired(rows, cutoff, other)
    ensures IsUniqueHolder(rows, cutoff, wanted, id)
  {
  }

  lemma UniqueHolderMatchesAll(rows: Rows, cutoff: int, wanted: set<string>, visited: set<string>,
                               matched: map<string, string>)
    requires MatchesVisited(rows, wanted, visited, matched)
    requires forall other :: other in visited <==> Unexpired(rows, cutoff, other)
    ensures (exists id :: IsUniqueHolder(rows, cutoff, wanted, id)) ==> |matched| == |wanted|
  {
    if id :| IsUniqueHolder(rows, cutoff, wanted, id) {
      assert forall c :: c in wanted ==> Pending(rows, id, c);
      assert matched.Keys == wanted;
    }
  }

  /** The next row is visited: `matched` extends `before` by the wanted ids pending in it. */
  lemma VisitedOneMore(rows: Rows, wanted: set<string>, visited: set<string>, before: map<string, string>,
                       matched: map<string, string>, id: string)
    requires id in rows && MatchesVisited(rows, wanted, visited, before)
    requires matched.Keys == before.Keys + wanted * ToSet(rows[id].pendingCallIds)
    requires forall c :: c in before ==> matched[c] == before[c]
    requires forall c :: c in wanted * ToSet(rows[id].pendingCallIds) ==> matched[c] == id
    ensures MatchesVisited(rows, wanted, visited + {id}, matched)
  {
  }

  lemma UniqueAfter(rows: Rows, wanted: set<string>, visited: set<string>, unique: Option<string>, id: string)
    requires id in rows && wanted != {} && UniqueOfVisited(rows, wanted, visited, unique)
    ensures !(wanted <= ToSet(rows[id].pendingCallIds)) ==> UniqueOfVisited(rows, wanted, visited + {id}, unique)
    ensures wanted <= ToSet(rows[id].pendingCallIds) ==> UniqueOfVisited(rows, wanted, visited + {id}, Some(id))
  {
    if !(wanted <= ToSet(rows[id].pendingCallIds)) {
      var c :| c in wanted && c !in ToSet(rows[id].pendingCallIds);
      assert !Pending(rows, id, c);
    }
  }
}
