/** `LocationResponse.fromOdooResponseMapper`: the location, with its company and
    its divisions, built from the replies of the location and division reads. */
module LocationResponses {
  import opened Outcomes
  import opened JavaNumbers
  import opened OdooValues

  /** A `java.util.Date`; what `stringToDate` makes of a text is not part of
      this model. */
  datatype Date = Date(epochMillis: int)

  /** `stringToDate`: a date, or `null`. */
  type DateParser = string -> Option<Date>

  datatype DivisionResponse = DivisionResponse(
    id: Long,
    name: string,
    createdAt: Option<Date>,
    updatedAt: Option<Date>)

  datatype LocationResponse = LocationResponse(
    id: Long,
    name: string,
    createdAt: Option<Date>,
    updatedAt: Option<Date>,
    companyId: Option<Long>,
    companyName: Option<string>,
    divisions: seq<DivisionResponse>)

  /** The company of a location from its `company_id` value: both `null` when
      Odoo sent a boolean (its `false` for "no company"), otherwise element 0 of
      the `[id, name]` array parsed as a long and element 1's text. */
  function CompanyOf(v: Value): (r: Result<(Option<Long>, Option<string>)>)
    ensures v.Bool? <==> r == Ok((None, None))
    ensures r.Ok? && !v.Bool? ==> v.Arr? && |v.items| >= 2 && r.value.0.Some? && r.value.1.Some?
    ensures r.Ok? && !v.Bool? ==> ParseLongValue(v.items[0]) == Ok(r.value.0.value)
                                  && Render(v.items[1]) == Ok(r.value.1.value)
    ensures v.Arr? && |v.items| >= 2 ==>
      (r.Ok? <==> ParseLongValue(v.items[0]).Ok? && v.items[1] != Null)
    ensures v.Arr? && |v.items| == 0 ==> r == Err(IndexOutOfBounds)
    ensures v.Arr? && |v.items| > 0 && ParseLongValue(v.items[0]).Err? ==>
      r == Err(ParseLongValue(v.items[0]).error)
    ensures v.Arr? && |v.items| == 1 && ParseLongValue(v.items[0]).Ok? ==> r == Err(IndexOutOfBounds)
    ensures v.Arr? && |v.items| >= 2 && ParseLongValue(v.items[0]).Ok? && v.items[1] == Null ==>
      r == Err(NullPointer)
    ensures v.Null? ==> r == Err(NullPointer)
    ensures v.Str? || v.Int? ==> r == Err(ClassCast)
  {
    match v
    case Bool(_) => Ok((None, None))
    case Arr(items) =>
      if |items| == 0 then Err(IndexOutOfBounds)
      else
        var companyId :- ParseLongValue(items[0]);
        if |items| < 2 then Err(IndexOutOfBounds)
        else
          var companyName :- Render(items[1]);
          Ok((Some(companyId), Some(companyName)))
    case Null => Err(NullPointer)
    case _ => Err(ClassCast)
  }

  /** Odoo's many2one pair `[id, name]` gives exactly that id and name. */
  lemma {:induction false} CompanyOfPair(id: Int32, name: string)
    ensures CompanyOf(Arr([Int(id), Str(name)])) == Ok((Some(id as Long), Some(name)))
  {
    assert ParseLongValue(Int(id)) == Ok(id as Long);
  }

  /** The division built from one division record. */
  function DivisionOf(rec: Record, stringToDate: DateParser): Result<DivisionResponse> {
    var id :- ParseLongValue(Get(rec, "id"));
    var name :- Render(Get(rec, "name"));
    var createDate :- Render(Get(rec, "create_date"));
    var writeDate :- Render(Get(rec, "write_date"));
    Ok(DivisionResponse(id, name, stringToDate(createDate), stringToDate(writeDate)))
  }

  /** A division record converts exactly when its id parses and its name and
      both dates are present; the division then holds the parsed id, the name's
      text and the parsed dates. */
  lemma {:induction false} DivisionOfFields(rec: Record, stringToDate: DateParser)
    ensures var r := DivisionOf(rec, stringToDate);
      && (r.Ok? <==> ParseLongValue(Get(rec, "id")).Ok? && Get(rec, "name") != Null
                     && Get(rec, "create_date") != Null && Get(rec, "write_date") != Null)
      && (r.Ok? ==> Ok(r.value.id) == ParseLongValue(Get(rec, "id")))
      && (r.Ok? ==> Ok(r.value.name) == Render(Get(rec, "name")))
      && (r.Ok? ==> r.value.createdAt == stringToDate(Render(Get(rec, "create_date")).value)
                    && r.value.updatedAt == stringToDate(Render(Get(rec, "write_date")).value))
  {
  }

  function DivisionParser(stringToDate: DateParser): Record -> Result<DivisionResponse> {
    rec => DivisionOf(rec, stringToDate)
  }

  /** What the inner loop computes: one division per division record, in
      record order, or the exception of the first record that fails; a `null`
      division list throws as the loop starts. */
  function AllDivisions(divisionRecords: Option<seq<Record>>, stringToDate: DateParser)
    : Result<seq<DivisionResponse>>
  {
    match divisionRecords
    case None => Err(NullPointer)
    case Some(records) => MapAll(records, DivisionParser(stringToDate))
  }

  /** The division list converts exactly when every division record does, and
      then holds one division per record, in record order. */
  lemma {:induction false} AllDivisionsInOrder(divisionRecords: seq<Record>, stringToDate: DateParser)
    ensures var r := AllDivisions(Some(divisionRecords), stringToDate);
      && (r.Ok? <==> forall j :: 0 <= j < |divisionRecords| ==> DivisionOf(divisionRecords[j], stringToDate).Ok?)
      && (r.Ok? ==> |r.value| == |divisionRecords|)
      && (r.Ok? ==> forall j :: 0 <= j < |divisionRecords| ==>
            DivisionOf(divisionRecords[j], stringToDate) == Ok(r.value[j]))
  {
    var parse := DivisionParser(stringToDate);
    assert forall j :: 0 <= j < |divisionRecords| ==>
      parse(divisionRecords[j]) == DivisionOf(divisionRecords[j], stringToDate);
  }

  /** The location built from one location record, given the outcome of the
      division conversion that runs between its company and its own fields. The
      division conversion does not depend on the location record, so each pass
      of the loop computes the same outcome. */
  function LocationOf(rec: Record, divisions: Result<seq<DivisionResponse>>, stringToDate: DateParser)
    : Result<LocationResponse>
  {
    var company :- CompanyOf(Get(rec, "company_id"));
    var divisionList :- divisions;
    ParseLocationFields(rec, stringToDate, company, divisionList)
  }

  /** A location record converts exactly when its company, the divisions and
      its own fields do. Its divisions are then the converted division list;
      its company is the one `CompanyOf` reads, `null` exactly for a boolean
      `company_id`; its id and name are those of the record. */
  lemma {:induction false} LocationOfFields(rec: Record, divisions: Result<seq<DivisionResponse>>,
                                            stringToDate: DateParser)
    ensures var r := LocationOf(rec, divisions, stringToDate);
      && (r.Ok? <==> CompanyOf(Get(rec, "company_id")).Ok? && divisions.Ok?
                     && ParseLongValue(Get(rec, "id")).Ok? && Get(rec, "name") != Null
                     && Get(rec, "create_date") != Null && Get(rec, "write_date") != Null)
      && (r.Ok? ==> r.value.divisions == divisions.value)
      && (r.Ok? ==> (r.value.companyId, r.value.companyName) == CompanyOf(Get(rec, "company_id")).value)
      && (r.Ok? ==> (r.value.companyId.None? <==> Get(rec, "company_id").Bool?))
      && (r.Ok? ==> Ok(r.value.id) == ParseLongValue(Get(rec, "id")))
      && (r.Ok? ==> Ok(r.value.name) == Render(Get(rec, "name")))
  {
  }

  /** The divisions are every division record, whatever ids the location's own
      `division_ids` lists: replacing that value changes nothing. */
  lemma {:induction false} DivisionsIgnoreDivisionIds(rec: Record, ids: Value,
                                                      divisions: Result<seq<DivisionResponse>>,
                                                      stringToDate: DateParser)
    ensures LocationOf(rec["division_ids" := ids], divisions, stringToDate)
            == LocationOf(rec, divisions, stringToDate)
  {
    var other := rec["division_ids" := ids];
    assert Get(other, "company_id") == Get(rec, "company_id");
    assert Get(other, "id") == Get(rec, "id") && Get(other, "name") == Get(rec, "name");
    assert Get(other, "create_date") == Get(rec, "create_date");
    assert Get(other, "write_date") == Get(rec, "write_date");
  }

  function LocationParser(divisionRecords: Option<seq<Record>>, stringToDate: DateParser)
    : Record -> Result<LocationResponse>
  {
    rec => LocationOf(rec, AllDivisions(divisionRecords, stringToDate), stringToDate)
  }

  /** What the mapper computes: every location record converted in order, the
      first exception winning, and of the converted locations only the last
      kept (`null` when there is none). A `null` location list throws as the
      loop starts. */
  function MappedLocation(locations: Option<seq<Record>>, divisionRecords: Option<seq<Record>>,
                          stringToDate: DateParser): Result<Option<LocationResponse>>
  {
    match locations
    case None => Err(NullPointer)
    case Some(records) => LastOrNull(MapAll(records, LocationParser(divisionRecords, stringToDate)))
  }

  /** No location records give `null`, whatever the division records hold;
      otherwise the mapping succeeds exactly when every location record
      converts, and then gives the last record's location. */
  lemma {:induction false} MappedLocationIsLast(locations: seq<Record>, divisionRecords: Option<seq<Record>>,
                                                stringToDate: DateParser)
    ensures locations == [] ==> MappedLocation(Some(locations), divisionRecords, stringToDate) == Ok(None)
    ensures var divisions := AllDivisions(divisionRecords, stringToDate);
      MappedLocation(Some(locations), divisionRecords, stringToDate).Ok? <==>
        forall i :: 0 <= i < |locations| ==> LocationOf(locations[i], divisions, stringToDate).Ok?
    ensures var divisions := AllDivisions(divisionRecords, stringToDate);
      MappedLocation(Some(locations), divisionRecords, stringToDate).Ok? && locations != [] ==>
        MappedLocation(Some(locations), divisionRecords, stringToDate) ==
          Ok(Some(LocationOf(locations[|locations| - 1], divisions, stringToDate).value))
  {
    var parse := LocationParser(divisionRecords, stringToDate);
    var divisions := AllDivisions(divisionRecords, stringToDate);
    LastOfMapAll(locations, parse);
    assert forall i :: 0 <= i < |locations| ==>
      parse(locations[i]) == LocationOf(locations[i], divisions, stringToDate);
  }

  /** A `null` location list throws `NullPointerException`. A `null` division
      list throws on the first location record: its company's exception if
      that fails, `NullPointerException` from the division loop otherwise. With
      no location records the division list is never read. */
  lemma {:induction false} NullListsThrow(locations: Option<seq<Record>>, divisionRecords: Option<seq<Record>>,
                                          stringToDate: DateParser)
    ensures locations.None? ==> MappedLocation(locations, divisionRecords, stringToDate) == Err(NullPointer)
    ensures locations == Some([]) ==> MappedLocation(locations, divisionRecords, stringToDate) == Ok(None)
    ensures divisionRecords.None? && locations.Some? && locations.value != [] ==>
      var company := CompanyOf(Get(locations.value[0], "company_id"));
      MappedLocation(locations, divisionRecords, stringToDate)
        == Err(if company.Err? then company.error else NullPointer)
  {
    if divisionRecords.None? && locations.Some? && locations.value != [] {
      var parse := LocationParser(divisionRecords, stringToDate);
      var first := locations.value[0];
      assert parse(first) == LocationOf(first, Err(NullPointer), stringToDate);
      assert FirstFailure(locations.value, parse, 0);
    }
  }

  /** `fromOdooResponseMapper`: every location record is converted in turn and
      each overwrites the previous one; every iteration converts all division
      records again. The first exception ends the loop. */
  method FromOdooResponseMapper(odooResponse: Option<seq<Record>>, odooResponseDivisions: Option<seq<Record>>,
                                stringToDate: DateParser)
    returns (r: Result<Option<LocationResponse>>)
    ensures r == MappedLocation(odooResponse, odooResponseDivisions, stringToDate)
  {
    if odooResponse.None? {
      return Err(NullPointer);
    }
    var records := odooResponse.value;
    ghost var parse := LocationParser(odooResponseDivisions, stringToDate);
    ghost var converted: seq<LocationResponse> := [];
    var locationResponse: Option<LocationResponse> := None;
    var i := 0;
    while i < |records|
      invariant 0 <= i <= |records| && MapAll(records[..i], parse) == Ok(converted)
      invariant LastOrNull(Ok(converted)) == Ok(locationResponse)
    {
      var location := ConvertLocation(records[i], odooResponseDivisions, stringToDate);
      MapAllStep(records, parse, i, converted);
      if location.Err? {
        return Err(location.error);
      }
      locationResponse := Some(location.value);
      converted := converted + [location.value];
      i := i + 1;
    }
    assert records[..i] == records;
    r := Ok(locationResponse);
  }

  /** One pass of the mapper's loop body: the company, then the divisions, then
      the location's own fields, the first exception ending it. */
  method ConvertLocation(record: Record, odooResponseDivisions: Option<seq<Record>>, stringToDate: DateParser)
    returns (r: Result<LocationResponse>)
    ensures r == LocationParser(odooResponseDivisions, stringToDate)(record)
  {
    var company := CompanyOf(Get(record, "company_id"));
    if company.Err? {
      return Err(company.error);
    }
    var divisions := DivisionsOf(odooResponseDivisions, stringToDate);
    if divisions.Err? {
      return Err(divisions.error);
    }
    r := ParseLocationFields(record, stringToDate, company.value, divisions.value);
  }

  /** The inner `for` over the division records: one division per division
      record, in record order, or the first exception; a `null` list throws
      before the first pass. */
  method DivisionsOf(odooResponseDivisions: Option<seq<Record>>, stringToDate: DateParser)
    returns (r: Result<seq<DivisionResponse>>)
    ensures r == AllDivisions(odooResponseDivisions, stringToDate)
  {
    if odooResponseDivisions.None? {
      return Err(NullPointer);
    }
    var records := odooResponseDivisions.value;
    var divisions: seq<DivisionResponse> := [];
    var j := 0;
    while j < |records|
      invariant 0 <= j <= |records|
      invariant MapAll(records[..j], DivisionParser(stringToDate)) == Ok(divisions)
    {
      var division := DivisionOf(records[j], stringToDate);
      MapAllStep(records, DivisionParser(stringToDate), j, divisions);
      assert DivisionParser(stringToDate)(records[j]) == division;
      if division.Err? {
        return Err(division.error);
      }
      divisions := divisions + [division.value];
      j := j + 1;
    }
    assert records[..j] == records;
    r := Ok(divisions);
  }

  /** The location's own fields, read after the division loop, once company
      and divisions are known. */
  function ParseLocationFields(rec: Record, stringToDate: DateParser,
                               company: (Option<Long>, Option<string>),
                               divisions: seq<DivisionResponse>)
    : (r: Result<LocationResponse>)
    ensures r.Ok? <==> ParseLongValue(Get(rec, "id")).Ok? && Get(rec, "name") != Null
                       && Get(rec, "create_date") != Null && Get(rec, "write_date") != Null
    ensures r.Ok? ==> r.value.divisions == divisions
    ensures r.Ok? ==> r.value.createdAt == stringToDate(Render(Get(rec, "create_date")).value)
                      && r.value.updatedAt == stringToDate(Render(Get(rec, "write_date")).value)
    ensures r.Ok? ==> r.value.companyId == company.0 && r.value.companyName == company.1
    ensures r.Ok? ==> Ok(r.value.id) == ParseLongValue(Get(rec, "id"))
    ensures r.Ok? ==> Ok(r.value.name) == Render(Get(rec, "name"))
  {
    var id :- ParseLongValue(Get(rec, "id"));
    var name :- Render(Get(rec, "name"));
    var createDate :- Render(Get(rec, "create_date"));
    var writeDate :- Render(Get(rec, "write_date"));
    Ok(LocationResponse(id, name, stringToDate(createDate), stringToDate(writeDate),
                        company.0, company.1, divisions))
  }
}
