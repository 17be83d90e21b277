/**
 * The gateway's dynamic route loader (DynamicRouteLoader). It remembers the ids of the
 * routes it has saved; on every configuration payload it deletes each remembered route,
 * forgets them all, parses the payload, and saves the parsed definitions one by one,
 * remembering each id. Any exception on the way is caught and logged, so what was done
 * before it stays done. A definition may have a null id: the set remembers it, and the
 * delete of a null id throws before the set is cleared. The route store
 * (RouteDefinitionWriter) is a table keyed by id that also records, as ghost state, the
 * calls it received.
 */
module DynamicRoutes {
  import opened Wrappers

  /** A gateway RouteDefinition: its id (None for null), path predicates, target uri and filters. */
  datatype RouteDef = RouteDef(id: Option<string>, predicates: seq<string>, uri: string, filters: seq<string>)

  /** A call made on the route store. */
  datatype WriterCall = DeleteCall(routeId: string) | SaveCall(definition: RouteDef)

  type Table = map<string, RouteDef>

  /**
   * What JSON.parseObject yields for a payload: None when it throws or returns null; inside
   * the list, None stands for a JSON null element.
   */
  type Parsed = Option<seq<Option<RouteDef>>>

  /** One save: the definition replaces any route with its id; one without an id is not stored. */
  function SaveOne(table: Table, definition: RouteDef): Table
  {
    if definition.id.Some? then table[definition.id.value := definition] else table
  }

  /** The table after saving the definitions in order. */
  function SaveAll(table: Table, defs: seq<RouteDef>): Table
  {
    if defs == [] then table
    else SaveOne(SaveAll(table, defs[..|defs| - 1]), defs[|defs| - 1])
  }

  /** The non-null ids among tracked ids. */
  function Named(ids: set<Option<string>>): set<string>
  {
    set o | o in ids && o.Some? :: o.value
  }

  /** The ids of a list of definitions, null included; duplicates collapse. */
  function IdsOf(defs: seq<RouteDef>): set<Option<string>>
  {
    if defs == [] then {} else IdsOf(defs[..|defs| - 1]) + {defs[|defs| - 1].id}
  }

  /** The save calls for a list of definitions, in list order. */
  function SaveCalls(defs: seq<RouteDef>): seq<WriterCall>
  {
    if defs == [] then [] else SaveCalls(defs[..|defs| - 1]) + [SaveCall(defs[|defs| - 1])]
  }

  /** The delete calls for a list of ids, in list order. */
  function DeleteCalls(ids: seq<string>): seq<WriterCall>
  {
    if ids == [] then [] else DeleteCalls(ids[..|ids| - 1]) + [DeleteCall(ids[|ids| - 1])]
  }

  /** The definitions of a list in which no element is null. */
  function Unwrap(elems: seq<Option<RouteDef>>): seq<RouteDef>
    requires forall i :: 0 <= i < |elems| ==> elems[i].Some?
  {
    if elems == [] then [] else Unwrap(elems[..|elems| - 1]) + [elems[|elems| - 1].value]
  }

  /** The position of the first null element, or the length when there is none. */
  function FirstNull(elems: seq<Option<RouteDef>>): (k: nat)
    ensures k <= |elems|
    ensures forall i :: 0 <= i < k ==> elems[i].Some?
    ensures k < |elems| ==> elems[k].None?
  {
    if elems == [] || elems[0].None? then 0 else 1 + FirstNull(elems[1..])
  }

  /** The definitions an update saves: none when parsing fails, else those before the first null. */
  function Saved(parsed: Parsed): seq<RouteDef>
  {
    if parsed.None? then [] else Unwrap(parsed.value[..FirstNull(parsed.value)])
  }

  /**
   * The route table after an update that gets past the delete step (no null id tracked),
   * from the table and the tracked ids before it.
   */
  function UpdatedTable(table: Table, tracked: set<Option<string>>, parsed: Parsed): Table
  {
    SaveAll(table - Named(tracked), Saved(parsed))
  }

  /** The ids tracked after an update. */
  function UpdatedIds(parsed: Parsed): set<Option<string>>
  {
    IdsOf(Saved(parsed))
  }

  lemma {:induction false} IdsOfMembers(defs: seq<RouteDef>, id: Option<string>)
    ensures id in IdsOf(defs) <==> exists i :: 0 <= i < |defs| && defs[i].id == id
  {
    if defs != [] {
      IdsOfMembers(defs[..|defs| - 1], id);
      if id in IdsOf(defs[..|defs| - 1]) {
        var i :| 0 <= i < |defs| - 1 && defs[..|defs| - 1][i].id == id;
        assert defs[i].id == id;
      }
    }
  }

  /** Saving adds exactly the non-null saved ids to the table's keys. */
  lemma {:induction false} SaveAllKeys(table: Table, defs: seq<RouteDef>)
    ensures SaveAll(table, defs).Keys == table.Keys + Named(IdsOf(defs))
  {
    if defs != [] {
      var init := defs[..|defs| - 1];
      var last := defs[|defs| - 1];
      SaveAllKeys(table, init);
      assert Named(IdsOf(defs)) == Named(IdsOf(init)) + (if last.id.Some? then {last.id.value} else {});
    }
  }

  /** A route whose id is not saved keeps its definition. */
  lemma {:induction false} SaveAllUntouched(table: Table, defs: seq<RouteDef>, id: string)
    requires id in table && Some(id) !in IdsOf(defs)
    ensures id in SaveAll(table, defs) && SaveAll(table, defs)[id] == table[id]
  {
    if defs != [] {
      SaveAllUntouched(table, defs[..|defs| - 1], id);
    }
  }

  /** On a duplicate id the last definition with that id wins. */
  lemma {:induction false} SaveAllLastWins(table: Table, defs: seq<RouteDef>, k: nat)
    requires k < |defs| && defs[k].id.Some?
    requires forall j :: k < j < |defs| ==> defs[j].id != defs[k].id
    ensures defs[k].id.value in SaveAll(table, defs) && SaveAll(table, defs)[defs[k].id.value] == defs[k]
  {
    if k < |defs| - 1 {
      SaveAllLastWins(table, defs[..|defs| - 1], k);
    }
  }

  /** A saved id maps to one of the saved definitions, never to an older route. */
  lemma {:induction false} SaveAllFromDefs(table: Table, defs: seq<RouteDef>, id: string)
    requires Some(id) in IdsOf(defs)
    ensures id in SaveAll(table, defs) && SaveAll(table, defs)[id] in defs
    ensures SaveAll(table, defs)[id].id == Some(id)
  {
    var init := defs[..|defs| - 1];
    if Some(id) != defs[|defs| - 1].id {
      SaveAllFromDefs(table, init, id);
      assert SaveAll(table, init)[id] in init;
    }
  }

  /** A payload that parses to a list without null elements tracks exactly its ids. */
  lemma UpdateSuccessTracksParsedIds(elems: seq<Option<RouteDef>>)
    requires forall i :: 0 <= i < |elems| ==> elems[i].Some?
    ensures UpdatedIds(Some(elems)) == set i | 0 <= i < |elems| :: elems[i].value.id
  {
    assert elems[..|elems|] == elems;
    assert FirstNull(elems) == |elems|;
    UnwrapAt(elems);
    forall id | id in UpdatedIds(Some(elems)) ensures exists i :: 0 <= i < |elems| && elems[i].value.id == id {
      IdsOfMembers(Unwrap(elems), id);
    }
    forall i | 0 <= i < |elems| ensures elems[i].value.id in UpdatedIds(Some(elems)) {
      IdsOfMembers(Unwrap(elems), elems[i].value.id);
    }
  }

  /** A saved definition without an id leaves null among the tracked ids. */
  lemma NullIdTracked(elems: seq<Option<RouteDef>>, k: nat)
    requires forall i :: 0 <= i < |elems| ==> elems[i].Some?
    requires k < |elems| && elems[k].value.id.None?
    ensures None in UpdatedIds(Some(elems))
  {
    UpdateSuccessTracksParsedIds(elems);
  }

  lemma {:induction false} UnwrapAt(elems: seq<Option<RouteDef>>)
    requires forall i :: 0 <= i < |elems| ==> elems[i].Some?
    ensures |Unwrap(elems)| == |elems|
    ensures forall i :: 0 <= i < |elems| ==> Unwrap(elems)[i] == elems[i].value
  {
    if elems != [] {
      UnwrapAt(elems[..|elems| - 1]);
    }
  }

  /**
   * A payload that fails to parse has already cost every tracked route: none of them is
   * in the table afterwards, nothing is tracked, and every other route is as it was.
   */
  lemma ParseFailureDropsTrackedRoutes(table: Table, tracked: set<Option<string>>)
    ensures UpdatedIds(None) == {}
    ensures UpdatedTable(table, tracked, None) == table - Named(tracked)
    ensures forall id :: Some(id) in tracked ==> id !in UpdatedTable(table, tracked, None)
  {
  }

  /**
   * After an update, a route that was tracked and is not among the saved ids is gone;
   * a route that was neither tracked nor saved is untouched.
   */
  lemma UpdateRemovesStaleRoutes(table: Table, tracked: set<Option<string>>, parsed: Parsed, id: string)
    requires Some(id) !in UpdatedIds(parsed)
    ensures Some(id) in tracked ==> id !in UpdatedTable(table, tracked, parsed)
    ensures Some(id) !in tracked && id in table ==>
              id in UpdatedTable(table, tracked, parsed) && UpdatedTable(table, tracked, parsed)[id] == table[id]
  {
    SaveAllKeys(table - Named(tracked), Saved(parsed));
    if Some(id) !in tracked && id in table {
      SaveAllUntouched(table - Named(tracked), Saved(parsed), id);
    }
  }

  /**
   * When the loader owns the table (its keys are the tracked ids), an update that gets
   * past the delete step keeps it so, and leaves exactly the new definitions, keyed by id.
   */
  lemma OwnedTableReplaced(table: Table, tracked: set<Option<string>>, parsed: Parsed)
    requires table.Keys == Named(tracked)
    ensures UpdatedTable(table, tracked, parsed).Keys == Named(UpdatedIds(parsed))
    ensures UpdatedTable(table, tracked, parsed) == SaveAll(map[], Saved(parsed))
  {
    assert table - Named(tracked) == map[];
    SaveAllKeys(map[], Saved(parsed));
  }

  /** The table after lost only routes among the given ids, and kept the others as they were. */
  ghost predicate LostOnly(before: Table, after: Table, ids: set<string>)
  {
    before.Keys - after.Keys <= ids && after == before - (before.Keys - after.Keys)
  }

  /** The route store: a table keyed by route id, with a ghost record of the calls made on it. */
  class RouteDefinitionWriter {
    var routes: Table
    ghost var calls: seq<WriterCall>

    constructor ()
      ensures routes == map[] && calls == []
    {
      routes := map[];
      calls := [];
    }

    /** delete(id): removes the route; deleting an absent id leaves the table as it is. */
    method Delete(routeId: string)
      modifies this
      ensures routes == old(routes) - {routeId}
      ensures calls == old(calls) + [DeleteCall(routeId)]
    {
      routes := routes - {routeId};
      calls := calls + [DeleteCall(routeId)];
    }

    /** save(definition): stores the definition under its id, replacing any route with that id. */
    method Save(definition: RouteDef)
      modifies this
      ensures routes == SaveOne(old(routes), definition)
      ensures definition.id.Some? ==> routes == old(routes)[definition.id.value := definition]
      ensures definition.id.None? ==> routes == old(routes)
      ensures calls == old(calls) + [SaveCall(definition)]
    {
      if definition.id.Some? {
        routes := routes[definition.id.value := definition];
      }
      calls := calls + [SaveCall(definition)];
    }
  }

  class DynamicRouteLoader {
    const writer: RouteDefinitionWriter
    const parse: string -> Parsed      // JSON.parseObject(configInfo, List<RouteDefinition>)
    var routeIds: set<Option<string>>

    /** The loader owns the table: its routes are exactly the tracked ones. */
    ghost predicate Valid()
      reads this, writer
    {
      writer.routes.Keys == Named(routeIds)
    }

    constructor (writer: RouteDefinitionWriter, parse: string -> Parsed)
      ensures this.writer == writer && this.parse == parse && routeIds == {}
      ensures writer.routes == map[] ==> Valid()
    {
      this.writer := writer;
      this.parse := parse;
      routeIds := {};
    }

    /** What parsing yields for a payload; fastjson returns null for a null payload. */
    function ParsePayload(configInfo: Option<string>): (parsed: Parsed)
      ensures configInfo.None? ==> parsed.None?
      ensures configInfo.Some? ==> parsed == parse(configInfo.value)
    {
      if configInfo.None? then None else parse(configInfo.value)
    }

    /**
     * The table and tracked ids are those of one update with this payload. With a null id
     * tracked, the update stops in the delete step: the tracked set stays as it was and
     * the table has lost only tracked routes.
     */
    twostate predicate AppliedUpdate(configInfo: Option<string>)
      reads this, writer
    {
      if None in old(routeIds) then
        && routeIds == old(routeIds)
        && LostOnly(old(writer.routes), writer.routes, Named(old(routeIds)))
      else
        && routeIds == UpdatedIds(ParsePayload(configInfo))
        && writer.routes == UpdatedTable(old(writer.routes), old(routeIds), ParsePayload(configInfo))
    }

    /**
     * updateRoutes: deletes every tracked route, then saves the parsed definitions in order.
     * It returns whether it reached the end (true) or caught an exception on the way (false);
     * no exception escapes.
     */
    method UpdateRoutes(configInfo: Option<string>) returns (completed: bool, ghost deleted: seq<string>)
      modifies this, writer
      ensures AppliedUpdate(configInfo)
      ensures forall id :: id in deleted ==> Some(id) in old(routeIds)
      ensures None !in old(routeIds) ==>
                && |deleted| == |old(routeIds)| && (forall id :: Some(id) in old(routeIds) ==> id in deleted)
                && writer.calls == old(writer.calls) + DeleteCalls(deleted) + SaveCalls(Saved(ParsePayload(configInfo)))
      ensures None in old(routeIds) ==> writer.calls == old(writer.calls) + DeleteCalls(deleted)
      ensures completed <==> None !in old(routeIds) && ParsePayload(configInfo).Some?
                             && forall i :: 0 <= i < |ParsePayload(configInfo).value| ==> ParsePayload(configInfo).value[i].Some?
      ensures old(Valid()) && None !in old(routeIds) ==> Valid()
    {
      ghost var wasValid := Valid();
      // 1. delete the old routes
      var threw;
      threw, deleted := DeleteTrackedRoutes();
      if threw {
        // Mono.just(null) threw inside the delete loop; the exception is caught and logged
        return false, deleted;
      }
      // 2. parse the payload
      var parsed := ParsePayload(configInfo);
      if parsed.None? {
        completed := false;
      } else {
        // 3. save the new routes
        completed := SaveRoutes(parsed.value);
      }
      if wasValid {
        OwnedTableReplaced(old(writer.routes), old(routeIds), parsed);
      }
    }

    /**
     * Step 1 of updateRoutes: a delete for every tracked id, then the tracked set is cleared.
     * The delete of a null id throws (true), which leaves the set uncleared.
     */
    method DeleteTrackedRoutes() returns (threw: bool, ghost deleted: seq<string>)
      modifies this, writer
      ensures threw <==> None in old(routeIds)
      ensures routeIds == if threw then old(routeIds) else {}
      ensures forall id :: id in deleted ==> Some(id) in old(routeIds)
      ensures !threw ==> |deleted| == |old(routeIds)| && forall id :: Some(id) in old(routeIds) ==> id in deleted
      ensures writer.routes == old(writer.routes) - (set id | id in deleted)
      ensures !threw ==> writer.routes == old(writer.routes) - Named(old(routeIds))
      ensures threw ==> LostOnly(old(writer.routes), writer.routes, Named(old(routeIds)))
      ensures writer.calls == old(writer.calls) + DeleteCalls(deleted)
    {
      var pending := routeIds;
      deleted := [];
      while pending != {}
        invariant pending <= old(routeIds) && routeIds == old(routeIds)
        invariant None in old(routeIds) ==> None in pending
        invariant forall id :: id in deleted <==> Some(id) in old(routeIds) - pending
        invariant |deleted| + |pending| == |old(routeIds)|
        invariant writer.routes == old(writer.routes) - (set id | id in deleted)
        invariant writer.calls == old(writer.calls) + DeleteCalls(deleted)
        decreases pending
      {
        var routeId :| routeId in pending;
        if routeId.None? {
          LostOnlyTracked(old(writer.routes), deleted, Named(old(routeIds)));
          return true, deleted;
        }
        writer.Delete(routeId.value);
        pending := pending - {routeId};
        deleted := deleted + [routeId.value];
      }
      assert (set id | id in deleted) == Named(old(routeIds));
      routeIds := {};
      return false, deleted;
    }

    /**
     * Step 3 of updateRoutes: a save for each definition in list order, recording its id;
     * a null element throws, which ends the step early (false).
     */
    method SaveRoutes(definitions: seq<Option<RouteDef>>) returns (completed: bool)
      modifies this, writer
      ensures routeIds == old(routeIds) + IdsOf(Saved(Some(definitions)))
      ensures writer.routes == SaveAll(old(writer.routes), Saved(Some(definitions)))
      ensures writer.calls == old(writer.calls) + SaveCalls(Saved(Some(definitions)))
      ensures completed <==> forall i :: 0 <= i < |definitions| ==> definitions[i].Some?
    {
      var i := 0;
      while i < |definitions|
        invariant 0 <= i <= |definitions|
        invariant forall j :: 0 <= j < i ==> definitions[j].Some?
        invariant routeIds == old(routeIds) + IdsOf(Unwrap(definitions[..i]))
        invariant writer.routes == SaveAll(old(writer.routes), Unwrap(definitions[..i]))
        invariant writer.calls == old(writer.calls) + SaveCalls(Unwrap(definitions[..i]))
      {
        if definitions[i].None? {
          FirstNullAt(definitions, i);
          return false;
        }
        var definition := definitions[i].value;
        writer.Save(definition);
        routeIds := routeIds + {definition.id};
        assert definitions[..i + 1][..i] == definitions[..i];
        i := i + 1;
      }
      assert definitions[..i] == definitions;
      FirstNullAt(definitions, i);
      return true;
    }

    /** The first load at startup: the payload fetched with the listener registration is applied. */
    method InitRouteConfigListener(configInfo: Option<string>)
      modifies this, writer
      ensures AppliedUpdate(configInfo)
      ensures old(Valid()) && None !in old(routeIds) ==> Valid()
    {
      var _, _ := UpdateRoutes(configInfo);
    }

    /** The listener's receiveConfigInfo: every pushed payload is applied the same way. */
    method ReceiveConfigInfo(configInfo: Option<string>)
      modifies this, writer
      ensures AppliedUpdate(configInfo)
      ensures old(Valid()) && None !in old(routeIds) ==> Valid()
    {
      var _, _ := UpdateRoutes(configInfo);
    }
  }

  /** Removing some of the given ids loses only routes among them. */
  lemma LostOnlyTracked(table: Table, deleted: seq<string>, ids: set<string>)
    requires forall id :: id in deleted ==> id in ids
    ensures LostOnly(table, table - (set id | id in deleted), ids)
  {
    var after := table - (set id | id in deleted);
    assert after == table - (table.Keys - after.Keys);
  }

  lemma {:induction false} FirstNullAt(elems: seq<Option<RouteDef>>, k: nat)
    requires k <= |elems|
    requires forall j :: 0 <= j < k ==> elems[j].Some?
    requires k < |elems| ==> elems[k].None?
    ensures FirstNull(elems) == k
  {
    if k > 0 {
      FirstNullAt(elems[1..], k - 1);
    }
  }
}
