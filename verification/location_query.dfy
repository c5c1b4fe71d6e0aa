/** `LocationQuery`: the Odoo `search_read` requests its query methods send (the
    model read, the domain conditions and the pagination), and the list of
    division ids `getLocationById` gathers from the locations it read. The
    client call and the list mapping that follow each request are not part of
    this model. */
module LocationQuery {
  import opened Outcomes
  import opened JavaNumbers
  import opened OdooValues

  /** The two Odoo models the queries read (`OdooConfig.RES_LOCATION` and
      `OdooConfig.RES_DIVISION`). */
  datatype OdooModel = ResLocation | ResDivision

  /** An `OdooCondition`: one domain term `(field, operator, value)`. */
  datatype Condition = Condition(field: string, operator: string, value: Value)

  /** An `OdooPagination`: the fields read, then offset, limit and order, each
      of which may be `null`. */
  datatype Pagination = Pagination(
    fields: seq<string>,
    offset: Option<Int32>,
    limit: Option<Int32>,
    order: Option<string>)

  /** One `searchAndRead(model, conditions, pagination)` request. */
  datatype SearchRead = SearchRead(model: OdooModel, conditions: seq<Condition>, pagination: Pagination)

  const LOCATION_FIELDS: seq<string> :=
    ["id", "name", "company_id", "division_ids", "create_date", "write_date"]
  const DIVISION_FIELDS: seq<string> := ["id", "name", "create_date", "write_date"]

  /** The guard every list query starts with: `id > 0`. */
  const ID_POSITIVE: Condition := Condition("id", ">", Int(0))

  /** The order of the unpaged list queries: newest id first. */
  const NEWEST_FIRST: string := "id desc"

  /** `search != null && !search.isEmpty()` */
  predicate Searchable(search: Option<string>) {
    search.Some? && search.value != ""
  }

  /** The conditions of a list query: the `id > 0` guard, followed by a
      case-insensitive name match exactly when there is a search term. */
  function ListConditions(search: Option<string>): (c: seq<Condition>)
    ensures 1 <= |c| <= 2 && c[0] == ID_POSITIVE
    ensures |c| == 2 <==> Searchable(search)
    ensures |c| == 2 ==> c[1] == Condition("name", "ilike", Str(search.value))
  {
    [ID_POSITIVE] + if Searchable(search) then [Condition("name", "ilike", Str(search.value))] else []
  }

  /** The condition list of `getPagedLocations` and `searchLocation`, grown by
      `add` calls on a fresh `ArrayList`. */
  method BuildListConditions(search: Option<string>) returns (conditions: seq<Condition>)
    ensures conditions == ListConditions(search)
  {
    conditions := [];
    conditions := conditions + [ID_POSITIVE];
    if search.Some? && search.value != "" {
      conditions := conditions + [Condition("name", "ilike", Str(search.value))];
    }
  }

  /** `orderBy + (asc ? " asc" : " desc")`: the column, then the direction. */
  function OrderString(orderBy: string, asc: bool): (s: string)
    ensures |s| > |orderBy| + 3 && s[..|orderBy|] == orderBy
  {
    var direction := if asc then " asc" else " desc";
    Tail(orderBy, direction, 0);
    orderBy + direction
  }

  /** The order string ends in " asc" exactly for an ascending sort and in
      " desc" exactly for a descending one. */
  lemma {:induction false} OrderStringDirection(orderBy: string, asc: bool)
    ensures var s := OrderString(orderBy, asc);
      (asc <==> s[|s| - 4..] == " asc") && (!asc <==> |s| >= 5 && s[|s| - 5..] == " desc")
  {
    var direction := if asc then " asc" else " desc";
    Tail(orderBy, direction, 4);
    if !asc {
      Tail(orderBy, direction, 5);
    }
    assert " asc"[0] != "desc"[0];
    assert " asc"[0] != " desc"[1];
  }

  /** The ends of `a + d`: `a` before it, the last `k` elements of `d` after. */
  lemma Tail(a: string, d: string, k: nat)
    requires k <= |d|
    ensures (a + d)[..|a|] == a
    ensures (a + d)[|a| + |d| - k..] == d[|d| - k..]
  {
  }

  /** The order string names its column and its direction unambiguously: two
      requests with the same order string sort by the same column the same
      way. */
  lemma {:induction false} OrderStringInjective(a: string, x: bool, b: string, y: bool)
    requires OrderString(a, x) == OrderString(b, y)
    ensures a == b && x == y
  {
    var s := OrderString(a, x);
    OrderStringDirection(a, x);
    OrderStringDirection(b, y);
    assert x == y;
    assert |a| == |b|;
    assert a == s[..|a|] == b;
  }

  /** The pagination of a location query that reads every page at once. */
  function Unpaged(order: Option<string>): (p: Pagination)
    ensures p.fields == LOCATION_FIELDS && p.offset.None? && p.limit.None? && p.order == order
  {
    Pagination(LOCATION_FIELDS, None, None, order)
  }

  /** The pagination of `getPagedLocations`: page `page` of `limit` rows, its
      offset the `int` product `page * limit`. */
  function PagedPagination(page: Int32, limit: Int32, orderBy: string, asc: bool): (p: Pagination)
    ensures p.fields == LOCATION_FIELDS && p.limit == Some(limit)
    ensures p.offset.Some? && (p.offset.value - page * limit) % TWO_32 == 0
    ensures MIN_INT <= page * limit <= MAX_INT ==> p.offset == Some(page * limit)
    ensures p.order == Some(OrderString(orderBy, asc))
  {
    Pagination(LOCATION_FIELDS, Some(MulInt(page, limit)), Some(limit), Some(OrderString(orderBy, asc)))
  }

  /** Consecutive pages tile the rows: the next page starts `limit` rows after
      this one, as long as its offset fits an `int`. */
  lemma {:induction false} ConsecutivePages(page: Int32, limit: Int32, orderBy: string, asc: bool)
    requires 0 <= page && 0 < limit && (page + 1) * limit <= MAX_INT
    ensures page + 1 <= MAX_INT
    ensures PagedPagination(page + 1, limit, orderBy, asc).offset.value
            == PagedPagination(page, limit, orderBy, asc).offset.value + limit
  {
    assert (page + 1) * limit == page * limit + limit;
    assert 0 <= page * limit <= (page + 1) * limit;
    assert page + 1 <= (page + 1) * limit;
  }

  /** A page whose offset leaves the `int` range wraps around: page 65536 of
      65536 rows asks for offset 0, the first page again. */
  lemma OffsetWraps(orderBy: string, asc: bool)
    ensures PagedPagination(65536, 65536, orderBy, asc).offset == Some(0)
  {
    assert (0 - 65536 * 65536) % TWO_32 == 0;
  }

  /** `getPagedLocations`: the list conditions, the six location fields, and
      the page's offset, limit and order. */
  method PagedLocationsQuery(search: Option<string>, page: Int32, limit: Int32, orderBy: string, asc: bool)
    returns (q: SearchRead)
    ensures q == SearchRead(ResLocation, ListConditions(search), PagedPagination(page, limit, orderBy, asc))
  {
    var conditions := BuildListConditions(search);
    var pagination := Pagination(LOCATION_FIELDS, Some(MulInt(page, limit)), Some(limit),
                                 Some(OrderString(orderBy, asc)));
    q := SearchRead(ResLocation, conditions, pagination);
  }

  /** `getAllLocations`: only the `id > 0` guard, every page, newest first. */
  method AllLocationsQuery() returns (q: SearchRead)
    ensures q == SearchRead(ResLocation, ListConditions(None), Unpaged(Some(NEWEST_FIRST)))
  {
    var conditions: seq<Condition> := [];
    conditions := conditions + [ID_POSITIVE];
    q := SearchRead(ResLocation, conditions, Pagination(LOCATION_FIELDS, None, None, Some(NEWEST_FIRST)));
  }

  /** `searchLocation`: the list conditions for the name, every page, newest
      first. */
  method SearchLocationQuery(name: Option<string>) returns (q: SearchRead)
    ensures q == SearchRead(ResLocation, ListConditions(name), Unpaged(Some(NEWEST_FIRST)))
  {
    var conditions := BuildListConditions(name);
    q := SearchRead(ResLocation, conditions, Pagination(LOCATION_FIELDS, None, None, Some(NEWEST_FIRST)));
  }

  /** `getLocationsByCompanyId`: the single condition `company_id = id`, the id
      narrowed by `Math.toIntExact`, which throws outside the `int` range (and
      on a `null` id, which it unboxes). */
  method LocationsByCompanyQuery(companyId: Option<Long>) returns (r: Result<SearchRead>)
    ensures companyId.None? ==> r == Err(NullPointer)
    ensures companyId.Some? ==> (r.Ok? <==> MIN_INT <= companyId.value <= MAX_INT)
    ensures companyId.Some? && r.Err? ==> r.error == Arithmetic
    ensures r.Ok? ==> r.value == SearchRead(ResLocation, [Condition("company_id", "=", Int(companyId.value))],
                                           Unpaged(Some(NEWEST_FIRST)))
  {
    var conditions: seq<Condition> := [];
    if companyId.None? {
      return Err(NullPointer);
    }
    var idInt :- ToIntExact(companyId.value);
    conditions := conditions + [Condition("company_id", "=", Int(idInt))];
    r := Ok(SearchRead(ResLocation, conditions, Pagination(LOCATION_FIELDS, None, None, Some(NEWEST_FIRST))));
  }

  /** The location read of `getLocationById`: the single condition `id = id`,
      narrowed as above, and no order. */
  method LocationByIdQuery(id: Option<Long>) returns (r: Result<SearchRead>)
    ensures id.None? ==> r == Err(NullPointer)
    ensures id.Some? ==> (r.Ok? <==> MIN_INT <= id.value <= MAX_INT)
    ensures id.Some? && r.Err? ==> r.error == Arithmetic
    ensures r.Ok? ==> r.value == SearchRead(ResLocation, [Condition("id", "=", Int(id.value))], Unpaged(None))
  {
    var conditions: seq<Condition> := [];
    if id.None? {
      return Err(NullPointer);
    }
    var idInt :- ToIntExact(id.value);
    conditions := conditions + [Condition("id", "=", Int(idInt))];
    r := Ok(SearchRead(ResLocation, conditions, Pagination(LOCATION_FIELDS, None, None, None)));
  }

  /** `Arrays.asList((Object[]) map.get("division_ids"))`: the ids of one
      location record; a `null` array makes `asList` throw, any other value
      fails the cast. */
  function DivisionIdsOf(rec: Record): (r: Result<seq<Value>>)
    ensures r.Ok? <==> Get(rec, "division_ids").Arr?
    ensures r.Ok? ==> r.value == Get(rec, "division_ids").items
    ensures Get(rec, "division_ids").Null? ==> r == Err(NullPointer)
    ensures r.Err? && !Get(rec, "division_ids").Null? ==> r == Err(ClassCast)
  {
    match Get(rec, "division_ids")
    case Arr(items) => Ok(items)
    case Null => Err(NullPointer)
    case _ => Err(ClassCast)
  }

  /** The lists of `ss` one after the other, as successive `addAll` calls
      leave them. */
  function Flatten(ss: seq<seq<Value>>): seq<Value> {
    if ss == [] then [] else Flatten(ss[..|ss| - 1]) + ss[|ss| - 1]
  }

  /** A value is among the flattened lists exactly when one of the lists holds
      it. */
  lemma {:induction false} FlattenHolds(ss: seq<seq<Value>>, v: Value)
    ensures v in Flatten(ss) <==> exists i :: 0 <= i < |ss| && v in ss[i]
  {
    if ss != [] {
      var init := ss[..|ss| - 1];
      FlattenHolds(init, v);
      assert forall i :: 0 <= i < |init| ==> init[i] == ss[i];
      if v in Flatten(ss) && v !in ss[|ss| - 1] {
        var i :| 0 <= i < |init| && v in init[i];
        assert v in ss[i];
      }
    }
  }

  /** The flattened lists keep their order: the first list, then the rest. */
  lemma {:induction false} FlattenCons(ss: seq<seq<Value>>)
    requires ss != []
    ensures Flatten(ss) == ss[0] + Flatten(ss[1..])
  {
    if |ss| > 1 {
      var init := ss[..|ss| - 1];
      FlattenCons(init);
      assert init[0] == ss[0];
      assert init[1..] == ss[1..][..|ss[1..]| - 1];
    } else {
      assert ss[1..] == [];
    }
  }

  /** The division ids `getLocationById` collects: every location record's
      `division_ids`, in record order, or the first exception. */
  function DivisionIds(resp: seq<Record>): (r: Result<seq<Value>>)
    ensures r.Ok? <==> forall i :: 0 <= i < |resp| ==> Get(resp[i], "division_ids").Arr?
    ensures resp == [] ==> r == Ok([])
    ensures forall i :: FirstFailure(resp, DivisionIdsOf, i) ==> r == Err(DivisionIdsOf(resp[i]).error)
  {
    match MapAll(resp, DivisionIdsOf)
    case Err(e) => Err(e)
    case Ok(ss) => Ok(Flatten(ss))
  }

  /** The collected ids are exactly the ids of the records read: each one
      belongs to some record, and each record's ids are all there. */
  lemma {:induction false} DivisionIdsCollectAll(resp: seq<Record>, v: Value)
    requires DivisionIds(resp).Ok?
    ensures v in DivisionIds(resp).value <==>
      exists i :: 0 <= i < |resp| && v in Get(resp[i], "division_ids").items
  {
    var ss := MapAll(resp, DivisionIdsOf).value;
    FlattenHolds(ss, v);
    assert forall i :: 0 <= i < |resp| ==> ss[i] == Get(resp[i], "division_ids").items;
  }

  /** A single location's ids come through unchanged, in their own order. */
  lemma {:induction false} DivisionIdsOfOne(rec: Record)
    requires Get(rec, "division_ids").Arr?
    ensures DivisionIds([rec]) == Ok(Get(rec, "division_ids").items)
  {
    var ss := MapAll([rec], DivisionIdsOf).value;
    assert |ss| == 1 && ss[0] == Get(rec, "division_ids").items;
    assert DivisionIds([rec]) == Ok(Flatten(ss));
    assert ss[..0] == [] && Flatten(ss[..0]) == [];
    assert Flatten(ss) == [] + ss[0] == ss[0];
  }

  /** The gathered ids are the first record's `division_ids` followed by those
      of the remaining records. */
  lemma {:induction false} DivisionIdsCons(resp: seq<Record>)
    requires resp != [] && DivisionIds(resp).Ok?
    ensures DivisionIds(resp[1..]).Ok?
    ensures DivisionIds(resp).value == Get(resp[0], "division_ids").items + DivisionIds(resp[1..]).value
  {
    var ss := MapAll(resp, DivisionIdsOf).value;
    var rest := resp[1..];
    assert forall i :: 0 <= i < |rest| ==> rest[i] == resp[i + 1];
    assert ss[1..] == MapAll(rest, DivisionIdsOf).value;
    FlattenCons(ss);
  }

  /** The flattening loop of `getLocationById`: `addAll` of each location's
      ids onto a fresh list; the first exception ends it, and a `null` reply
      throws as the loop starts. */
  method FlattenDivisionIds(reply: Option<seq<Record>>) returns (r: Result<seq<Value>>)
    ensures reply.None? ==> r == Err(NullPointer)
    ensures reply.Some? ==> r == DivisionIds(reply.value)
  {
    if reply.None? {
      return Err(NullPointer);
    }
    var resp := reply.value;
    ghost var lists: seq<seq<Value>> := [];
    var divisionIds: seq<Value> := [];
    var i := 0;
    while i < |resp|
      invariant 0 <= i <= |resp| && |lists| == i
      invariant forall k :: 0 <= k < i ==> DivisionIdsOf(resp[k]) == Ok(lists[k])
      invariant divisionIds == Flatten(lists)
    {
      var ids := DivisionIdsOf(resp[i]);
      if ids.Err? {
        assert FirstFailure(resp, DivisionIdsOf, i);
        return Err(ids.error);
      }
      assert (lists + [ids.value])[..i] == lists;
      lists := lists + [ids.value];
      divisionIds := divisionIds + ids.value;
      i := i + 1;
    }
    MapAllOk(resp, DivisionIdsOf, lists);
    r := Ok(divisionIds);
  }

  /** The division read of `getLocationById`: the single condition
      `id in divisionIds` and the four division fields, unpaged and unordered. */
  method DivisionQuery(divisionIds: seq<Value>) returns (q: SearchRead)
    ensures q.model == ResDivision && |q.conditions| == 1
    ensures q.conditions[0] == Condition("id", "in", Arr(divisionIds))
    ensures q.pagination == Pagination(DIVISION_FIELDS, None, None, None)
  {
    var divisionConditions: seq<Condition> := [];
    divisionConditions := divisionConditions + [Condition("id", "in", Arr(divisionIds))];
    q := SearchRead(ResDivision, divisionConditions, Pagination(DIVISION_FIELDS, None, None, None));
  }
}
