/** `PartnerResponse`: the partner the service hands back, the mapper that builds
    a list of them from an Odoo `search_read` reply, and its `toString`. */
module PartnerResponses {
  import opened Outcomes
  import opened OdooValues

  /** The five Lombok fields; each is a reference and may be `null`. */
  datatype PartnerResponse = PartnerResponse(
    name: Option<string>,
    phone: Option<string>,
    mobile: Option<bool>,
    email: Option<string>,
    website: Option<string>)

  /** The record holds a non-null value under each of the five keys the mapper
      reads. */
  predicate HasPartnerFields(rec: Record) {
    Get(rec, "name") != Null && Get(rec, "phone") != Null && Get(rec, "mobile") != Null
    && Get(rec, "email") != Null && Get(rec, "website") != Null
  }

  /** The response built from one record: each field is the `toString()` of the
      same-named value and `mobile` is whether that text equals "true". */
  function PartnerOf(rec: Record): (r: Result<PartnerResponse>)
    ensures r.Ok? <==> HasPartnerFields(rec)
    ensures r.Err? ==> r.error == NullPointer
    ensures r.Ok? ==> r.value.mobile == Some(Get(rec, "mobile") in {Bool(true), Str("true")})
    ensures r.Ok? ==> r.value.name == Some(Render(Get(rec, "name")).value)
    ensures r.Ok? ==> r.value.phone == Some(Render(Get(rec, "phone")).value)
    ensures r.Ok? ==> r.value.email == Some(Render(Get(rec, "email")).value)
    ensures r.Ok? ==> r.value.website == Some(Render(Get(rec, "website")).value)
  {
    var name :- Render(Get(rec, "name"));
    var phone :- Render(Get(rec, "phone"));
    var mobile :- Render(Get(rec, "mobile"));
    var email :- Render(Get(rec, "email"));
    var website :- Render(Get(rec, "website"));
    RendersTrue(Get(rec, "mobile"));
    Ok(PartnerResponse(Some(name), Some(phone), Some(mobile == "true"), Some(email), Some(website)))
  }

  /** `fromOdooResponse`: one response per record, in record order; a record
      lacking any of the five keys ends the loop with a `NullPointerException`. */
  method FromOdooResponse(resp: seq<Record>) returns (r: Result<seq<PartnerResponse>>)
    ensures r == MapAll(resp, PartnerOf)
    ensures r.Ok? <==> forall i :: 0 <= i < |resp| ==> HasPartnerFields(resp[i])
    ensures r.Err? ==> r.error == NullPointer
    ensures r.Ok? ==> |r.value| == |resp|
    ensures resp == [] ==> r == Ok([])
  {
    var result: seq<PartnerResponse> := [];
    var i := 0;
    while i < |resp|
      invariant 0 <= i <= |resp| && MapAll(resp[..i], PartnerOf) == Ok(result)
    {
      var partner := PartnerOf(resp[i]);
      MapAllStep(resp, PartnerOf, i, result);
      if partner.Err? {
        return Err(partner.error);
      }
      result := result + [partner.value];
      i := i + 1;
    }
    assert resp[..i] == resp;
    r := Ok(result);
  }

  /** A string field as string concatenation writes it: `null` becomes "null". */
  function Show(s: Option<string>): string {
    match s
    case None => "null"
    case Some(t) => t
  }

  /** A `Boolean` field as string concatenation writes it. */
  function ShowBool(b: Option<bool>): string {
    match b
    case None => "null"
    case Some(true) => "true"
    case Some(false) => "false"
  }

  const TO_STRING_HEAD: string := "SearchPartnerResponse{name='"
  const TO_STRING_TAIL: string := "'}"

  /** `toString()`: the four string fields single-quoted, `mobile` unquoted,
      in the order name, phone, mobile, email, website. The text is built
      from the website field back to the name field by the functions below;
      concatenation is associative, so this is the text Java's left-to-right
      `+` chain produces. */
  function ToString(p: PartnerResponse): (s: string)
    ensures |s| == 71 + |Show(p.name)| + |Show(p.phone)| + |ShowBool(p.mobile)|
                      + |Show(p.email)| + |Show(p.website)|
    ensures s[..|TO_STRING_HEAD|] == TO_STRING_HEAD
    ensures s[|s| - |TO_STRING_TAIL|..] == TO_STRING_TAIL
  {
    KeepsTail(Show(p.website), "", TO_STRING_TAIL);
    KeepsTail(Show(p.email), "', website='", FromWebsite(p));
    KeepsTail(ShowBool(p.mobile), ", email='", FromEmail(p));
    KeepsTail(Show(p.phone), "', mobile=", FromMobile(p));
    KeepsTail(Show(p.name), "', phone='", FromPhone(p));
    KeepsTail(TO_STRING_HEAD, "", FromName(p));
    var s := TO_STRING_HEAD + FromName(p);
    assert s[..|TO_STRING_HEAD|] == TO_STRING_HEAD;
    s
  }

  /** `field + (sep + rest)` ends as `rest` does. */
  lemma KeepsTail(field: string, sep: string, rest: string)
    requires |rest| >= 2
    ensures var s := field + (sep + rest); |s| >= 2 && s[|s| - 2..] == rest[|rest| - 2..]
  {
    var s := field + (sep + rest);
    assert forall k :: 0 <= k < |rest| ==> s[|field| + |sep| + k] == rest[k];
  }

  /** What `toString()` writes from the website field on, from the email field
      on, and so on back to the name field. */
  function FromWebsite(p: PartnerResponse): string {
    Show(p.website) + TO_STRING_TAIL
  }

  function FromEmail(p: PartnerResponse): string {
    Show(p.email) + ("', website='" + FromWebsite(p))
  }

  function FromMobile(p: PartnerResponse): string {
    ShowBool(p.mobile) + (", email='" + FromEmail(p))
  }

  function FromPhone(p: PartnerResponse): string {
    Show(p.phone) + ("', mobile=" + FromMobile(p))
  }

  function FromName(p: PartnerResponse): string {
    Show(p.name) + ("', phone='" + FromPhone(p))
  }

  /** No string field contains a single quote, so each one ends where the next
      quote stands. */
  predicate QuoteFree(p: PartnerResponse) {
    '\'' !in Show(p.name) && '\'' !in Show(p.phone) && '\'' !in Show(p.email)
    && '\'' !in Show(p.website)
  }

  predicate AllPresent(p: PartnerResponse) {
    p.name.Some? && p.phone.Some? && p.mobile.Some? && p.email.Some? && p.website.Some?
  }

  /** In `a + x`, where `a` lacks `c` and `x` starts with it, the first `c`
      stands at index `|a|`. */
  lemma DelimiterAt(a: string, x: string, c: char)
    requires c !in a && |x| > 0 && x[0] == c
    ensures (a + x)[|a|] == c
    ensures forall k :: 0 <= k < |a| ==> (a + x)[k] != c
  {
    assert forall k :: 0 <= k < |a| ==> (a + x)[k] == a[k];
  }

  /** Two strings that agree up to a delimiter absent from both prefixes have the
      same prefix. */
  lemma {:induction false} SplitAtDelimiter(a: string, x: string, b: string, y: string, c: char)
    requires c !in a && c !in b
    requires |x| > 0 && |y| > 0 && x[0] == c && y[0] == c
    requires a + x == b + y
    ensures a == b && x == y
  {
    DelimiterAt(a, x, c);
    DelimiterAt(b, y, c);
    assert |a| == |b|;
    assert a == (a + x)[..|a|];
    assert b == (b + y)[..|b|];
    assert x == (a + x)[|a|..];
    assert y == (b + y)[|b|..];
  }

  lemma {:induction false} DropPrefix(p: string, x: string, y: string)
    requires p + x == p + y
    ensures x == y
  {
    assert x == (p + x)[|p|..];
    assert y == (p + y)[|p|..];
  }

  /** Peeling one field off two equal suffixes: `field + (sep + rest)`, where the
      field lacks the separator's first character. */
  lemma {:induction false} PeelField(fa: string, fb: string, sep: string, ra: string, rb: string)
    requires |sep| > 0 && sep[0] !in fa && sep[0] !in fb
    requires fa + (sep + ra) == fb + (sep + rb)
    ensures fa == fb && ra == rb
  {
    SplitAtDelimiter(fa, sep + ra, fb, sep + rb, sep[0]);
    DropPrefix(sep, ra, rb);
  }

  /** `toString()` loses nothing when no string field holds a quote: equal texts
      come from equal renderings, and from equal responses when every field is
      set, as it is for every response `fromOdooResponse` builds. */
  lemma {:induction false} ToStringInjective(a: PartnerResponse, b: PartnerResponse)
    requires QuoteFree(a) && QuoteFree(b)
    requires ToString(a) == ToString(b)
    ensures Show(a.name) == Show(b.name) && Show(a.phone) == Show(b.phone)
    ensures ShowBool(a.mobile) == ShowBool(b.mobile)
    ensures Show(a.email) == Show(b.email) && Show(a.website) == Show(b.website)
    ensures AllPresent(a) && AllPresent(b) ==> a == b
  {
    DropPrefix(TO_STRING_HEAD, FromName(a), FromName(b));
    PeelField(Show(a.name), Show(b.name), "', phone='", FromPhone(a), FromPhone(b));
    PeelField(Show(a.phone), Show(b.phone), "', mobile=", FromMobile(a), FromMobile(b));
    assert ',' !in ShowBool(a.mobile) && ',' !in ShowBool(b.mobile);
    PeelField(ShowBool(a.mobile), ShowBool(b.mobile), ", email='", FromEmail(a), FromEmail(b));
    PeelField(Show(a.email), Show(b.email), "', website='", FromWebsite(a), FromWebsite(b));
    SplitAtDelimiter(Show(a.website), TO_STRING_TAIL, Show(b.website), TO_STRING_TAIL, '\'');
    if AllPresent(a) && AllPresent(b) {
      assert a.mobile == b.mobile by {
        assert "true" != "false";
      }
    }
  }
}
