/** `PartnerService`: the guard chains that vet a partner request before it
    reaches Odoo, the five-key payload sent on success, and what the service
    makes of Odoo's replies. The Odoo client is passed in as functions (one per
    remote call); a `null` it returns after swallowing an error is `None`. */
module PartnerService {
  import opened Outcomes
  import opened JavaNumbers
  import opened OdooValues
  import opened PartnerResponses

  const MODEL: string := "res.partner"

  /** The largest upload accepted: 2 MiB. */
  const MAX_FILE_SIZE: int := 2097152

  const NAME_REQUIRED: string := "Name is required"
  const EMAIL_REQUIRED: string := "Email is required"
  const PHONE_REQUIRED: string := "Phone is required"
  const MOBILE_REQUIRED: string := "Mobile is required"
  const ID_REQUIRED: string := "Id is required"
  const FILE_TYPE: string := "File type must be png or jpg"
  const FILE_SIZE: string := "File size must be less than 2MB"

  /** An uploaded `MultipartFile`: its declared content type (which may be
      `null`) and its size in bytes. */
  datatype Upload = Upload(contentType: Option<string>, size: nat)

  /** The form fields of a create request; each may be `null`. */
  datatype CreatePartnerRequest = CreatePartnerRequest(
    name: Option<string>,
    email: Option<string>,
    phone: Option<string>,
    mobile: Option<bool>,
    website: Option<string>)

  /** An update request: the partner's id and the same five fields. */
  datatype UpdatePartnerRequest = UpdatePartnerRequest(id: Option<Long>, fields: CreatePartnerRequest)

  /** `odooClientApi.create(model, params, file)`: the new record's id. */
  type CreateCall = (string, map<string, Value>, Option<Upload>) -> Option<Int32>

  /** `odooClientApi.update(model, id, params, file)`: the `name_get` reply. */
  type UpdateCall = (string, Int32, map<string, Value>, Option<Upload>) -> Option<seq<Value>>

  /** `odooClientApi.delete(model, id)`: a message. */
  type DeleteCall = (string, Int32) -> Option<string>

  /** `odooClientApi.searchAndRead(model, params)`: the records found. */
  type SearchCall = (string, Value) -> Option<seq<Record>>

  /** `s == null || s.isEmpty()` */
  predicate Blank(s: Option<string>) {
    s.None? || s.value == ""
  }

  predicate AllowedType(contentType: string) {
    contentType == "image/png" || contentType == "image/jpeg"
  }

  /** Every rule a create request breaks, in the order the rules are listed:
      name, email, phone, mobile, then the upload's type and its size. A
      content type of `null` breaks the type rule with a
      `NullPointerException`, since `equals` is called on it. */
  function Violations(req: CreatePartnerRequest, file: Option<Upload>): seq<Exception> {
    (if Blank(req.name) then [Validation(NAME_REQUIRED)] else [])
    + (if Blank(req.email) then [Validation(EMAIL_REQUIRED)] else [])
    + (if Blank(req.phone) then [Validation(PHONE_REQUIRED)] else [])
    + (if req.mobile.None? then [Validation(MOBILE_REQUIRED)] else [])
    + FileViolations(file)
  }

  function FileViolations(file: Option<Upload>): seq<Exception> {
    match file
    case None => []
    case Some(f) =>
      (match f.contentType
       case None => [NullPointer]
       case Some(t) => if AllowedType(t) then [] else [Validation(FILE_TYPE)])
      + (if f.size > MAX_FILE_SIZE then [Validation(FILE_SIZE)] else [])
  }

  /** The upload checks: none without a file; the type before the size. */
  function CheckFile(file: Option<Upload>): (r: Option<Exception>)
    ensures r.None? <==> FileViolations(file) == []
    ensures r.Some? ==> r.value == FileViolations(file)[0]
  {
    match file
    case None => None
    case Some(f) =>
      if f.contentType.None? then Some(NullPointer)
      else if !AllowedType(f.contentType.value) then Some(Validation(FILE_TYPE))
      else if f.size > MAX_FILE_SIZE then Some(Validation(FILE_SIZE))
      else None
  }

  /** The guard chain of `createPartner`: the exception it throws, if any, is
      the one for the first rule the request breaks. */
  function CheckPartner(req: CreatePartnerRequest, file: Option<Upload>): (r: Option<Exception>)
    ensures r.None? <==> Violations(req, file) == []
    ensures r.Some? ==> r.value == Violations(req, file)[0]
  {
    if Blank(req.name) then Some(Validation(NAME_REQUIRED))
    else if Blank(req.email) then Some(Validation(EMAIL_REQUIRED))
    else if Blank(req.phone) then Some(Validation(PHONE_REQUIRED))
    else if req.mobile.None? then Some(Validation(MOBILE_REQUIRED))
    else CheckFile(file)
  }

  /** The rules at the edges: `mobile` only has to be present, so `false`
      passes; `website` is never looked at; an upload of exactly 2 MiB passes
      and one byte more fails. */
  lemma {:induction false} CheckPartnerEdges(req: CreatePartnerRequest, t: string)
    requires !Blank(req.name) && !Blank(req.email) && !Blank(req.phone)
    requires req.mobile == Some(false) && AllowedType(t)
    ensures CheckPartner(req, None) == None
    ensures CheckPartner(req.(website := None), None) == None
    ensures CheckPartner(req, Some(Upload(Some(t), MAX_FILE_SIZE))) == None
    ensures CheckPartner(req, Some(Upload(Some(t), MAX_FILE_SIZE + 1))) == Some(Validation(FILE_SIZE))
    ensures CheckPartner(req, Some(Upload(Some("image/gif"), MAX_FILE_SIZE + 1))) == Some(Validation(FILE_TYPE))
  {
  }

  /** The payload sent to Odoo: exactly the five keys, holding the request's
      values (`null` included). */
  function PartnerParams(req: CreatePartnerRequest): (p: map<string, Value>)
    ensures p.Keys == {"name", "email", "phone", "mobile", "website"}
    ensures p["name"] == StrValue(req.name) && p["email"] == StrValue(req.email)
    ensures p["phone"] == StrValue(req.phone) && p["mobile"] == BoolValue(req.mobile)
    ensures p["website"] == StrValue(req.website)
  {
    map["name" := StrValue(req.name), "email" := StrValue(req.email),
        "phone" := StrValue(req.phone), "mobile" := BoolValue(req.mobile),
        "website" := StrValue(req.website)]
  }

  /** The payload, built by successive `put`s into a fresh `HashMap`. */
  method BuildParams(req: CreatePartnerRequest) returns (params: map<string, Value>)
    ensures params == PartnerParams(req)
  {
    params := map[];
    params := params["name" := StrValue(req.name)];
    params := params["email" := StrValue(req.email)];
    params := params["phone" := StrValue(req.phone)];
    params := params["mobile" := BoolValue(req.mobile)];
    params := params["website" := StrValue(req.website)];
  }

  /** A payload that got past the checks carries a non-empty name, email and
      phone and a boolean mobile; only the website may still be `null`. */
  lemma {:induction false} CheckedParams(req: CreatePartnerRequest, file: Option<Upload>)
    requires CheckPartner(req, file).None?
    ensures var p := PartnerParams(req);
      p["name"].Str? && p["name"].s != "" && p["email"].Str? && p["email"].s != ""
      && p["phone"].Str? && p["phone"].s != "" && p["mobile"].Bool?
  {
  }

  /** `createPartner`: the first broken rule's exception, or the id Odoo
      returns for the five-key payload. */
  method CreatePartner(req: CreatePartnerRequest, file: Option<Upload>, create: CreateCall)
    returns (r: Result<Option<Int32>>)
    ensures r.Err? <==> Violations(req, file) != []
    ensures r.Err? ==> r.error == Violations(req, file)[0]
    ensures r.Ok? ==> r.value == create(MODEL, PartnerParams(req), file)
  {
    var failure := CheckPartner(req, file);
    if failure.Some? {
      return Err(failure.value);
    }
    var params := BuildParams(req);
    return Ok(create(MODEL, params, file));
  }

  /** The rules `updatePartner` applies: the id first, then those of create. */
  function UpdateViolations(req: UpdatePartnerRequest, file: Option<Upload>): seq<Exception> {
    (if req.id.None? then [Validation(ID_REQUIRED)] else []) + Violations(req.fields, file)
  }

  /** The partner `updatePartner` returns from the `name_get` reply `resp`:
      `resp[0][1]` as its name (a `String` cast), every other field `null`. */
  function NameGetResponse(resp: Option<seq<Value>>): (r: Result<PartnerResponse>)
    ensures r.Ok? ==> r.value.phone.None? && r.value.mobile.None? && r.value.email.None?
                      && r.value.website.None?
    ensures r.Ok? <==> resp.Some? && |resp.value| > 0 && resp.value[0].Arr?
                       && |resp.value[0].items| > 1
                       && (resp.value[0].items[1].Null? || resp.value[0].items[1].Str?)
    ensures r.Ok? ==> StrValue(r.value.name) == resp.value[0].items[1]
  {
    match resp
    case None => Err(NullPointer)
    case Some(outer) =>
      if |outer| == 0 then Err(IndexOutOfBounds)
      else
        match outer[0]
        case Null => Err(NullPointer)
        case Arr(inner) =>
          if |inner| < 2 then Err(IndexOutOfBounds)
          else
            (match inner[1]
             case Null => Ok(PartnerResponse(None, None, None, None, None))
             case Str(s) => Ok(PartnerResponse(Some(s), None, None, None, None))
             case _ => Err(ClassCast))
        case _ => Err(ClassCast)
  }

  /** `updatePartner`: the first broken rule's exception (the id rule first),
      or the partner named in the reply to the update of the five-key payload,
      sent for the id's low 32 bits. */
  method UpdatePartner(req: UpdatePartnerRequest, file: Option<Upload>, update: UpdateCall)
    returns (r: Result<PartnerResponse>)
    ensures UpdateViolations(req, file) != [] ==> r == Err(UpdateViolations(req, file)[0])
    ensures UpdateViolations(req, file) == [] ==>
      r == NameGetResponse(update(MODEL, IntValue(req.id.value), PartnerParams(req.fields), file))
  {
    if req.id.None? {
      return Err(Validation(ID_REQUIRED));
    }
    var failure := CheckPartner(req.fields, file);
    if failure.Some? {
      return Err(failure.value);
    }
    var params := BuildParams(req.fields);
    var idInt := IntValue(req.id.value);
    var resp := update(MODEL, idInt, params, file);
    r := NameGetResponse(resp);
  }

  /** Odoo's usual `name_get` reply `[[id, name]]` yields a partner holding
      just that name. */
  lemma {:induction false} NameGetOfPair(id: Int32, name: string)
    ensures NameGetResponse(Some([Arr([Int(id), Str(name)])]))
            == Ok(PartnerResponse(Some(name), None, None, None, None))
  {
  }

  /** `deletePartner`: "Id is required" for a null id, otherwise the message
      of Odoo's delete of the id's low 32 bits. */
  function DeletePartner(id: Option<Long>, delete: DeleteCall): (r: Result<Option<string>>)
    ensures r.Err? <==> id.None?
    ensures r.Err? ==> r.error == Validation(ID_REQUIRED)
    ensures id.Some? ==> r == Ok(delete(MODEL, IntValue(id.value)))
    ensures id.Some? && MIN_INT <= id.value <= MAX_INT ==> r == Ok(delete(MODEL, id.value))
  {
    match id
    case None => Err(Validation(ID_REQUIRED))
    case Some(x) => Ok(delete(MODEL, IntValue(x)))
  }

  /** `intValue()` keeps only the low 32 bits, so two ids 2^32 apart delete
      the same record. */
  lemma {:induction false} DeleteIdsAlias(id: Long, delete: DeleteCall)
    requires MIN_LONG <= id + TWO_32 <= MAX_LONG
    ensures DeletePartner(Some(id), delete) == DeletePartner(Some(id + TWO_32), delete)
  {
    Wrap32Congruent(id, id + TWO_32);
  }

  /** The `search_read` arguments: the domain `[["name", "ilike", name]]` and
      the five fields read. */
  function SearchParams(name: Option<string>): Value {
    Arr([
      Arr([Arr([Str("name"), Str("ilike"), StrValue(name)])]),
      Arr([Str("name"), Str("phone"), Str("mobile"), Str("email"), Str("website")])
    ])
  }

  /** `searchPartner`: the mapped records, or a `NullPointerException` when the
      client returned `null`. */
  method SearchPartner(name: Option<string>, searchAndRead: SearchCall)
    returns (r: Result<seq<PartnerResponse>>)
    ensures searchAndRead(MODEL, SearchParams(name)).None? ==> r == Err(NullPointer)
    ensures searchAndRead(MODEL, SearchParams(name)).Some? ==>
      r == MapAll(searchAndRead(MODEL, SearchParams(name)).value, PartnerOf)
  {
    var resp := searchAndRead(MODEL, SearchParams(name));
    if resp.None? {
      return Err(NullPointer);
    }
    r := FromOdooResponse(resp.value);
  }
}
