# Odoo partner and location service — a Dafny model

This project models the Java Spring service that sits in front of an Odoo
server. It covers four pieces of that service:

- **`PartnerService`** checks a partner create or update request, builds the
  five-key payload it sends to Odoo, and reads Odoo's `name_get` reply. It also
  guards deletion and runs the partner search.
- **`PartnerResponse`** builds one response per Odoo record. Its `toString`
  writes the `SearchPartnerResponse{...}` text.
- **`LocationResponse.fromOdooResponseMapper`** builds a location from the
  location and division records. It handles the company pair, which Odoo
  replaces by `false` when a location has none.
- **`LocationQuery`** builds the condition lists and pagination of each location
  query. It also gathers the division ids of the locations it read.

Java's own behaviour is written out wherever the service depends on it:

- `null` is `Option.None`, and an exception is `Result.Err`.
- `value.toString()` on `null` throws a `NullPointerException`. `Long.intValue()`
  keeps the low 32 bits. `Math.toIntExact` throws outside the `int` range.
- An `int` product wraps around. `Long.parseLong` accepts a sign and decimal
  digits.
- A `for` loop over a list stops at the first exception.

The Odoo client and `stringToDate` enter the model as function parameters.

Modules, one per file:

- `Outcomes` (outcomes.dfy): Option, Result, exceptions, and the for-each loop
  `MapAll`.
- `JavaNumbers` (java_numbers.dfy): int and long arithmetic, decimal text and
  parsing.
- `OdooValues` (odoo_values.dfy): reply values, records and `toString`.
- `PartnerResponses` (partner_response.dfy).
- `PartnerService` (partner_service.dfy).
- `LocationResponses` (location_response.dfy).
- `LocationQuery` (location_query.dfy).

Each loop of the source is a `method` with loop invariants. Its `ensures` ties
the result to a specification function, and lemmas prove the promised
properties about that function.

## Model

| member | source | states |
|---|---|---|
| Outcomes.MapAll | PartnerResponse.java:22-34 | a for-each loop appending each converted element succeeds exactly when every element converts; the list then keeps length and order, and otherwise the first failing element's exception is the outcome |
| Outcomes.MapAllStep | PartnerResponse.java:23-33 | one more pass of such a loop: a failing element ends the whole loop with its exception, and a converting one extends the converted prefix by its result |
| Outcomes.LastOrNull | LocationResponse.java:26-62 | a loop that overwrites one variable with each converted element returns `null` for no elements and otherwise the last element's result; an exception is passed on |
| Outcomes.LastOfMapAll | LocationResponse.java:26-62 | the overwriting loop over converted elements gives `null` for no elements; otherwise it succeeds exactly when every element converts, and then holds the last element's result |
| JavaNumbers.IntValue | PartnerService.java:118 | `Long.intValue()` gives the `int` congruent to the long modulo 2^32, and the long itself when it fits |
| JavaNumbers.ToIntExact | LocationQuery.java:107 | `Math.toIntExact` succeeds exactly when the long is in `int` range, keeps the value, and otherwise throws `ArithmeticException` |
| JavaNumbers.MulInt | LocationQuery.java:46 | `page * limit` on ints is the exact product modulo 2^32, and the exact product when it fits |
| JavaNumbers.ParseLong | LocationResponse.java:35 | `Long.parseLong` fails only with `NumberFormatException`. What it accepts is non-empty, holds nothing but digits after an optional `-` or `+` sign, and has a digit after the sign; a negative result needs a `-` |
| JavaNumbers.ParseDigits | LocationResponse.java:44 | any digit string, unsigned, after `+` or after `-`, parses to the number it denotes or its negation whenever that fits a long, and otherwise throws `NumberFormatException`; leading zeros are accepted |
| JavaNumbers.ParseLongOfDecimalString | LocationResponse.java:53 | parsing the decimal text of any long gives that long back |
| OdooValues.Get | PartnerResponse.java:26 | `map.get` yields the stored value, or `null` for a missing key |
| OdooValues.Render | PartnerResponse.java:26-30 | `toString()` throws `NullPointerException` exactly on `null`, and a string renders as itself |
| OdooValues.RendersTrue | PartnerResponse.java:28 | a value renders as "true" exactly when it is the boolean `true` or the string "true"; no number or array does |
| OdooValues.ParseLongValue | LocationResponse.java:53 | `Long.parseLong(v.toString())` gives an Integer back unchanged and parses a string's own text. It throws `NullPointerException` on `null` and `NumberFormatException` on a boolean or an array |
| PartnerResponses.PartnerOf | PartnerResponse.java:24-31 | one record converts exactly when its five keys hold non-null values; otherwise `NullPointerException`. Mobile is whether "mobile" renders as "true"; the other fields are renderings of the same-named keys |
| PartnerResponses.FromOdooResponse | PartnerResponse.java:21-34 | the loop computes the all-or-first-exception mapping; it succeeds exactly when every record has the five fields; length is kept, and an empty list gives an empty list |
| PartnerResponses.ToString | PartnerResponse.java:37-46 | the text starts with `SearchPartnerResponse{name='` and ends with `'}`; its length is 71 plus the field texts |
| PartnerResponses.ToStringInjective | PartnerResponse.java:38-46 | when no field text holds a quote, equal texts come from equal field renderings, and from equal responses when every field is set |
| PartnerService.CheckFile | PartnerService.java:64-71 | no upload passes; otherwise the first broken upload rule is reported: a `null` type throws, a non-png/jpeg type comes before a size above 2097152 |
| PartnerService.CheckPartner | PartnerService.java:52-71 | the create checks fail exactly when some rule is broken, and report the first broken rule in the order name, email, phone, mobile, file type, file size |
| PartnerService.CheckPartnerEdges | PartnerService.java:61-70 | mobile `false` passes; a null website passes; exactly 2097152 bytes passes and one more fails; a gif fails on type before size |
| PartnerService.PartnerParams | PartnerService.java:72-77 | the payload has exactly the keys name, email, phone, mobile and website, holding the request's values |
| PartnerService.BuildParams | PartnerService.java:72-77 | the successive `put`s produce that payload |
| PartnerService.CheckedParams | PartnerService.java:52-77 | a payload that passed the checks has non-empty name, email and phone and a boolean mobile |
| PartnerService.CreatePartner | PartnerService.java:51-79 | throws exactly when a rule is broken, with the first broken rule's exception; otherwise returns Odoo's id for the payload |
| PartnerService.NameGetResponse | PartnerService.java:121-126 | the reply yields a partner exactly when `resp[0]` is an array whose element 1 is a string or `null`; the name is that element and every other field is `null` |
| PartnerService.UpdatePartner | PartnerService.java:88-127 | the id rule comes before the create rules, and the first broken one is thrown; otherwise the name from the reply to updating the payload under the id's low 32 bits |
| PartnerService.NameGetOfPair | PartnerService.java:121-124 | Odoo's `[[id, name]]` reply yields a partner carrying only that name |
| PartnerService.DeletePartner | PartnerService.java:134-140 | fails exactly for a `null` id, with "Id is required". Otherwise Odoo is asked to delete the id's `intValue()`, its low 32 bits: the id itself when it is in `int` range |
| PartnerService.DeleteIdsAlias | PartnerService.java:138-139 | two ids 2^32 apart delete the same record |
| PartnerService.SearchPartner | PartnerService.java:27-42 | searches with `[["name", "ilike", name]]` and the five fields; a `null` reply throws `NullPointerException`, otherwise every record is mapped |
| LocationResponses.CompanyOf | LocationResponse.java:30-37 | a boolean `company_id` gives a `null` id and name. For an array of at least two elements, it converts exactly when element 0 parses as a long and element 1 is non-null: the id is element 0 parsed and the name is element 1's text. An empty array throws `IndexOutOfBoundsException`, and so does a one-element array whose element parses; a failing parse of element 0 throws its own exception. `null` throws `NullPointerException`; a string or number throws `ClassCastException` |
| LocationResponses.CompanyOfPair | LocationResponse.java:33-36 | Odoo's `[id, name]` pair gives exactly that id and name |
| LocationResponses.DivisionOfFields | LocationResponse.java:41-48 | a division record converts exactly when its id parses and name and both dates are present; the id is the parsed "id", the name is the text of "name", and the dates are `stringToDate` of the date texts |
| LocationResponses.AllDivisionsInOrder | LocationResponse.java:39-50 | a non-null division list converts exactly when every division record does; it then has one division per record, in record order |
| LocationResponses.LocationOfFields | LocationResponse.java:28-60 | a location record converts exactly when its company, the division list, its id, name and dates convert. Its divisions are the converted division list; its company is `CompanyOf`'s, `null` exactly for a boolean `company_id`; its id and name come from "id" and "name" |
| LocationResponses.DivisionsIgnoreDivisionIds | LocationResponse.java:39-50 | the location's own `division_ids` value has no effect on its conversion: the divisions are every division record, unfiltered |
| LocationResponses.MappedLocationIsLast | LocationResponse.java:26-62 | no location records give `null`; otherwise the result is Ok exactly when every record converts, and it is the last record's location |
| LocationResponses.NullListsThrow | LocationResponse.java:27-40 | a `null` location list throws `NullPointerException`; an empty one gives `null` even with a `null` division list. A `null` division list with at least one location record throws: the first record's company exception, or `NullPointerException` from the division loop |
| LocationResponses.FromOdooResponseMapper | LocationResponse.java:25-63 | the overwriting loop computes the mapping whose properties `MappedLocationIsLast` and `NullListsThrow` state; a `null` location list or the first exception ends it |
| LocationResponses.ConvertLocation | LocationResponse.java:28-60 | one pass of the outer loop (company, then the inner division loop, then the location's own fields) computes the location conversion of that record, with its exception when one is thrown |
| LocationResponses.DivisionsOf | LocationResponse.java:39-50 | the inner loop computes one division per division record, in order, or the first exception; a `null` division list throws `NullPointerException` |
| LocationResponses.ParseLocationFields | LocationResponse.java:52-60 | the location's own fields convert exactly when the id parses and name and dates are present; company and divisions are kept as given |
| LocationQuery.ListConditions | LocationQuery.java:35-41 | a list query's conditions start with `id > 0`; a second condition, `name ilike term`, is present exactly when the term is non-null and non-empty |
| LocationQuery.BuildListConditions | LocationQuery.java:82-88 | the `add` calls produce those conditions |
| LocationQuery.OrderString | LocationQuery.java:48 | the order string starts with the column name |
| LocationQuery.OrderStringDirection | LocationQuery.java:48 | it ends in " asc" exactly for an ascending sort and in " desc" exactly for a descending one |
| LocationQuery.OrderStringInjective | LocationQuery.java:48 | equal order strings have the same column and the same direction |
| LocationQuery.Unpaged | LocationQuery.java:68-73 | the unpaged pagination reads the six location fields with `null` offset and limit |
| LocationQuery.PagedPagination | LocationQuery.java:44-49 | the paged pagination reads the six location fields with limit = limit; offset = page*limit modulo 2^32, and exactly page*limit when that fits an int |
| LocationQuery.ConsecutivePages | LocationQuery.java:46-47 | the next page's offset is this page's offset plus the limit, while it fits an int |
| LocationQuery.OffsetWraps | LocationQuery.java:46 | page 65536 of 65536 rows asks for offset 0 |
| LocationQuery.PagedLocationsQuery | LocationQuery.java:30-52 | `getPagedLocations` reads res.location with the list conditions and the page's pagination |
| LocationQuery.AllLocationsQuery | LocationQuery.java:62-76 | `getAllLocations` reads with `id > 0` alone, unpaged, ordered "id desc" |
| LocationQuery.SearchLocationQuery | LocationQuery.java:80-99 | `searchLocation` reads with the list conditions for the name, unpaged, ordered "id desc" |
| LocationQuery.LocationsByCompanyQuery | LocationQuery.java:103-119 | a `null` id throws `NullPointerException`; an id outside `int` range throws `ArithmeticException`; otherwise the single condition `company_id = id`, unpaged, ordered "id desc" |
| LocationQuery.LocationByIdQuery | LocationQuery.java:123-140 | the same narrowing, the single condition `id = id`, unpaged and unordered |
| LocationQuery.DivisionIdsOf | LocationQuery.java:146-148 | a record contributes exactly the items of its `division_ids` array. `null` throws `NullPointerException`; any other non-array throws `ClassCastException` |
| LocationQuery.FlattenCons | LocationQuery.java:144-149 | successive `addAll` calls leave the lists in order: the first list, then the rest |
| LocationQuery.DivisionIdsCons | LocationQuery.java:143-151 | the gathered ids are the first record's `division_ids` followed by the ids gathered from the remaining records |
| LocationQuery.DivisionIds | LocationQuery.java:143-151 | gathering succeeds exactly when every record's `division_ids` is an array; otherwise the first failing record's exception. No records give no ids |
| LocationQuery.DivisionIdsCollectAll | LocationQuery.java:143-151 | an id is gathered exactly when some record lists it |
| LocationQuery.DivisionIdsOfOne | LocationQuery.java:145-149 | a single location's ids come through unchanged |
| LocationQuery.FlattenDivisionIds | LocationQuery.java:143-151 | the `addAll` loop computes the gathered ids; a `null` reply throws `NullPointerException` |
| LocationQuery.DivisionQuery | LocationQuery.java:154-166 | the division read is res.division with the single condition `id in divisionIds`, the four division fields, unpaged and unordered |

## Left out

- The Odoo client (OdooClientApi.java) is modelled only as function parameters. Its XML-RPC transport, authentication, Base64 upload encoding, and the `image_1920` entry it adds to the payload are not part of this model. Its `null` returns after swallowed errors are kept, as `None`.
- `searchAndRead(model, conditions, pagination)`, `OdooCondition`, `OdooPagination`, `OdooConfig`, `DivisionResponse`, `BaseOdooResponse` and `LocationListResponse` are not part of this model. Conditions, pagination and responses are plain datatypes, and the two model names are abstract constants. The list queries' `LocationListResponse.fromOdooResponseMapper` step is left out.
- LocationQuery.PagedLocationsQuery: does not model Spring's `Sort`, `PageRequest` (including its rejection of a negative page or a limit below 1), `PageImpl` or the `searchCount` total. It also does not model a `null` page, limit, `asc` or `orderBy`, whose unboxing throws; those parameters are plain values here.
- `getLocationById`'s `CompletableFuture` pipeline is not modelled. That covers its asynchronous ordering and its `ExecutionException` handling, which returns `null`. Its query construction, flattening and division query are modelled as separate steps.
- `stringToDate` is a function parameter; `Date` is an opaque value.
- PartnerController.java, the HTTP layer, is not part of this model.
- `Object[].toString()` is rendered as `[Ljava.lang.Object;@` without the identity hash that follows it.
- JavaNumbers.ParseLong: accepts ASCII digits only, while `Long.parseLong` also accepts other Unicode decimal digits.
- A record that is not a `Map`, and the `ClassCastException` its cast would throw, is not modelled: records are maps by type.
- UpdatePartnerRequest is not part of this model. Its shape, a `Long` id plus the five create fields, is taken from the getters `updatePartner` calls.
- The repository's JavaScript animation and UI code is not part of this model.
