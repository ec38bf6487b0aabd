/**
 * The `/api/properties` handlers. A request is its query parameters (`searchParams.get` results),
 * the session's email and, for writes, the decoded JSON body (`None` when the body is not JSON).
 * The image upload is the parameter `upload`; the allow-list, clock and id generator are passed in.
 */
module PropertiesRoute {
  import opened Wrappers
  import opened PropertyModel
  import opened PropertyValidation
  import opened PropertyRepository
  import opened PropertyService
  import RoleGuard
  import Text

  datatype Params = Params(
    slug: Option<string>,
    county: Option<string>,
    propertyType: Option<string>,
    minPrice: Option<string>,
    maxPrice: Option<string>,
    limit: Option<string>,
    cursor: Option<string>,
    id: Option<string>)

  /** A PATCH body: the id travels with the fields. */
  datatype PatchBody = PatchBody(id: Option<string>, fields: RawInput)

  datatype Body =
    | PropertyBody(property: Property)
    | PropertyListBody(properties: seq<Property>)
    | PageBody(page: Page)
    | ErrorBody(message: string)
    | FailureBody(failure: Failure)
    | SuccessBody

  datatype Response = Response(status: int, body: Body)

  const Forbidden := Response(403, ErrorBody("Forbidden"))
  const IdRequired := Response(400, ErrorBody("Property ID required"))
  const DefaultLimit := 10
  const MaxLimit := 50

  // ---------------------------------------------------------------- query parameters

  /** `Number` of already trimmed text: "" is 0, optionally signed digits are their value, anything else is NaN (`None`). */
  function NumberText(t: string): (r: Option<int>)
    ensures t == "" ==> r == Some(0)
    ensures Text.ParseDecimal(t).Some? ==> r == Some(Text.ParseDecimal(t).value)
    ensures t != "" && t[0] == '-' && Text.ParseDecimal(t[1..]).Some? ==> r == Some(0 - Text.ParseDecimal(t[1..]).value)
    ensures t != "" && t[0] == '+' && Text.ParseDecimal(t[1..]).Some? ==> r == Some(Text.ParseDecimal(t[1..]).value)
    ensures r.None? <==>
      && t != ""
      && Text.ParseDecimal(t).None?
      && !((t[0] == '-' || t[0] == '+') && Text.ParseDecimal(t[1..]).Some?)
  {
    if t == "" then Some(0)
    else if t[0] == '-' then
      (match Text.ParseDecimal(t[1..]) case Some(n) => Some(0 - n) case None => None)
    else if t[0] == '+' then
      (match Text.ParseDecimal(t[1..]) case Some(n) => Some(n as int) case None => None)
    else
      (match Text.ParseDecimal(t) case Some(n) => Some(n as int) case None => None)
  }

  /** `Number(s)` for integer text: surrounding whitespace is ignored, then the trimmed text is read. */
  function NumberParam(s: string): (r: Option<int>)
    ensures Text.Trim(s) == "" ==> r == Some(0)
    ensures Text.ParseDecimal(Text.Trim(s)).Some? ==> r == Some(Text.ParseDecimal(Text.Trim(s)).value)
    ensures r == NumberText(Text.Trim(s))
  {
    NumberText(Text.Trim(s))
  }

  /** The page size: `min(Number(limit), 50)` when the parameter is non-empty, 10 otherwise; NaN stays NaN (`None`). */
  function EffectiveLimit(param: Option<string>): (r: Option<int>)
    ensures !Truthy(param) ==> r == Some(DefaultLimit)
    ensures Truthy(param) ==> (r.Some? <==> NumberParam(param.value).Some?)
    ensures Truthy(param) && r.Some? ==> r.value == if NumberParam(param.value).value < MaxLimit then NumberParam(param.value).value else MaxLimit
    ensures r.Some? ==> r.value <= MaxLimit
  {
    if !(param.Some? && param.value != "") then Some(DefaultLimit)
    else
      match NumberParam(param.value)
      case None => None
      case Some(n) => Some(if n < MaxLimit then n else MaxLimit)
  }

  /** Digits alone read as their decimal value. */
  lemma NumberParamOfDigits(s: string)
    requires s != [] && forall i :: 0 <= i < |s| ==> Text.IsDigit(s[i])
    ensures NumberParam(s) == Some(Text.DecimalValue(s))
  {
    assert !Text.IsJsWhitespace(s[0]) && !Text.IsJsWhitespace(s[|s| - 1]);
    Text.TrimBordered(s);
    assert s[0] != '-' && s[0] != '+';
  }

  /** A limit written in digits is its value, capped at 50. */
  lemma EffectiveLimitOfDigits(s: string)
    requires s != [] && forall i :: 0 <= i < |s| ==> Text.IsDigit(s[i])
    ensures EffectiveLimit(Some(s)) == Some(if Text.DecimalValue(s) < MaxLimit then Text.DecimalValue(s) else MaxLimit)
  {
    NumberParamOfDigits(s);
  }

  /** There is no lower bound: a zero limit reaches the paginator. */
  lemma ZeroLimitPassesThrough()
    ensures EffectiveLimit(Some("0")) == Some(0)
  {
    var s := "0";
    assert Text.IsDigit(s[0]) && |s| == 1;
    EffectiveLimitOfDigits(s);
    assert s[..0] == "";
    assert Text.DecimalValue(s) == 0;
  }

  /** A large limit is capped at 50. */
  lemma LargeLimitCapped()
    ensures EffectiveLimit(Some("99")) == Some(MaxLimit)
  {
    var s := "99";
    assert Text.IsDigit(s[0]) && Text.IsDigit(s[1]) && |s| == 2;
    EffectiveLimitOfDigits(s);
    assert s[..1] == "9" && "9"[..0] == "";
    assert Text.DecimalValue(s) == 99;
  }

  /** The public filters: empty county and type are absent; a price that is empty or not a number imposes nothing. */
  function ListingFilters(params: Params): (r: Filters)
    ensures r.county.Some? <==> Truthy(params.county)
    ensures r.county.Some? ==> r.county == params.county
    ensures r.propertyType.Some? <==> Truthy(params.propertyType)
    ensures r.propertyType.Some? ==> r.propertyType == params.propertyType
    ensures !Truthy(params.minPrice) ==> r.minPrice.None?
    ensures !Truthy(params.maxPrice) ==> r.maxPrice.None?
    ensures Truthy(params.minPrice) ==> r.minPrice == NumberParam(params.minPrice.value)
    ensures Truthy(params.maxPrice) ==> r.maxPrice == NumberParam(params.maxPrice.value)
  {
    Filters(
      if params.county.Some? && params.county.value != "" then params.county else None,
      if params.propertyType.Some? && params.propertyType.value != "" then params.propertyType else None,
      if params.minPrice.Some? && params.minPrice.value != "" then NumberParam(params.minPrice.value) else None,
      if params.maxPrice.Some? && params.maxPrice.value != "" then NumberParam(params.maxPrice.value) else None)
  }

  /** The cursor parameter: empty is absent; otherwise it must read as a timestamp, or the query fails. */
  function ParseCursor(param: Option<string>): (r: Result<Option<Timestamp>, Failure>)
    ensures !Truthy(param) ==> r == Ok(None)
    ensures Truthy(param) ==> (r.Ok? <==> Text.ParseDecimal(param.value).Some?)
    ensures Truthy(param) && r.Ok? ==> r.value == Some(Text.ParseDecimal(param.value).value)
  {
    if !(param.Some? && param.value != "") then Ok(None)
    else
      match Text.ParseDecimal(param.value)
      case Some(t) => Ok(Some(t))
      case None => Err(QueryFailed)
  }

  // ---------------------------------------------------------------- GET

  /** What the public branch of GET answers for these rows. */
  function PublicResponse(rows: seq<Property>, params: Params): Response
  {
    var limit := EffectiveLimit(params.limit);
    var cursor := ParseCursor(params.cursor);
    if limit.None? || limit.value < 1 || cursor.Err? then Response(500, FailureBody(QueryFailed))
    else Response(200, PageBody(CorrectedPage(Listing(rows, cursor.value, ListingFilters(params)), limit.value)))
  }

  /** A public page holds only available rows that pass the filters and cursor, newest first, at most `min(limit, 50)` of them. */
  lemma PublicPageRows(rows: seq<Property>, params: Params)
    requires PublicResponse(rows, params).status == 200
    ensures var page := PublicResponse(rows, params).body.page;
      && |page.properties| <= EffectiveLimit(params.limit).value <= MaxLimit
      && NewestFirst(page.properties)
      && forall p :: p in page.properties ==> p in rows && Listed(p, ParseCursor(params.cursor).value, ListingFilters(params))
  {
    var limit := EffectiveLimit(params.limit);
    var cursor := ParseCursor(params.cursor);
    var listing := Listing(rows, cursor.value, ListingFilters(params));
    var page := CorrectedPage(listing, limit.value);
    assert page.properties <= listing;
    forall p | p in page.properties ensures p in rows && Listed(p, cursor.value, ListingFilters(params)) {
      var i :| 0 <= i < |page.properties| && page.properties[i] == p;
      assert listing[i] == p;
    }
  }

  /** GET: a slug is looked up first; otherwise an admin gets every row; otherwise the public page. */
  method Get(table: PropertyTable, params: Params, sessionEmail: Option<string>, adminEmails: seq<string>) returns (resp: Response)
    ensures Truthy(params.slug) ==>
      var found := Selected(SlugQuery(params.slug.value), table.rows);
      resp == if |found| == 1 then Response(200, PropertyBody(found[0])) else Response(500, FailureBody(NotSingle))
    ensures !Truthy(params.slug) && RoleGuard.IsAdmin(sessionEmail, adminEmails) ==>
      resp == Response(200, PropertyListBody(Selected(SelectAll, table.rows)))
    ensures !Truthy(params.slug) && !RoleGuard.IsAdmin(sessionEmail, adminEmails) ==>
      resp == PublicResponse(table.rows, params)
  {
    if params.slug.Some? && params.slug.value != "" {
      var property := table.GetPropertyBySlug(params.slug.value);
      return if property.Ok? then Response(200, PropertyBody(property.value)) else Response(500, FailureBody(property.error));
    }
    if sessionEmail.Some? && sessionEmail.value != "" && RoleGuard.IsAdmin(sessionEmail, adminEmails) {
      var properties := table.GetAllPropertiesAdmin();
      return Response(200, PropertyListBody(properties));
    }
    var filters := ListingFilters(params);
    var limit := EffectiveLimit(params.limit);
    var cursor := ParseCursor(params.cursor);
    if limit.None? || cursor.Err? {
      return Response(500, FailureBody(QueryFailed));
    }
    var page := table.GetPropertiesPaginatedCorrected(limit.value, cursor.value, filters);
    resp := if page.Ok? then Response(200, PageBody(page.value)) else Response(500, FailureBody(page.error));
  }

  // ---------------------------------------------------------------- writes

  /** `Promise.all(images.map(uploadImage))`: every upload must succeed; the first failure in list order is reported. */
  function UploadAll(images: seq<string>, upload: string -> Result<string, Failure>): (r: Result<seq<string>, Failure>)
    ensures r.Ok? <==> forall i :: 0 <= i < |images| ==> upload(images[i]).Ok?
    ensures r.Ok? ==> |r.value| == |images| && forall i :: 0 <= i < |images| ==> r.value[i] == upload(images[i]).value
    decreases |images|
  {
    if images == [] then Ok([])
    else
      var first := upload(images[0]);
      var rest := UploadAll(images[1..], upload);
      if first.Err? then Err(first.error)
      else if rest.Err? then Err(rest.error)
      else Ok([first.value] + rest.value)
  }

  /** The body POST hands to the service: a non-empty image list is replaced by the uploaded URLs. */
  function PostPayload(input: RawInput, upload: string -> Result<string, Failure>): (r: Result<RawInput, Failure>)
    ensures !(input.images.Some? && |input.images.value| > 0) ==> r == Ok(input)
    ensures input.images.Some? && |input.images.value| > 0 ==>
      (r.Ok? <==> UploadAll(input.images.value, upload).Ok?)
    ensures r.Ok? ==> r.value.(images := input.images) == input
    ensures r.Ok? && input.images.Some? && |input.images.value| > 0 ==> r.value.images == Some(UploadAll(input.images.value, upload).value)
  {
    if input.images.Some? && |input.images.value| > 0 then
      match UploadAll(input.images.value, upload)
      case Ok(urls) => Ok(input.(images := Some(urls)))
      case Err(e) => Err(e)
    else Ok(input)
  }

  /** POST: admins only; a non-empty image list is uploaded first; 201 on success, 400 on any failure. */
  method Post(table: PropertyTable, sessionEmail: Option<string>, adminEmails: seq<string>, body: Option<RawInput>,
              upload: string -> Result<string, Failure>, isUrl: string -> bool, freshId: string, now: Timestamp)
    returns (resp: Response)
    modifies table
    ensures !RoleGuard.IsAdmin(sessionEmail, adminEmails) ==> resp == Forbidden
    ensures RoleGuard.IsAdmin(sessionEmail, adminEmails) && body.None? ==> resp.status == 400
    ensures RoleGuard.IsAdmin(sessionEmail, adminEmails) && body.Some? && PostPayload(body.value, upload).Err? ==>
      resp == Response(400, FailureBody(PostPayload(body.value, upload).error))
    ensures RoleGuard.IsAdmin(sessionEmail, adminEmails) && body.Some? && PostPayload(body.value, upload).Ok? ==>
      (resp.status == 201 <==> CreateSucceeds(old(table.rows), PostPayload(body.value, upload).value, isUrl, freshId, now))
    ensures resp.status == 201 || resp.status == 400 || resp.status == 403
    ensures resp.status != 201 ==> table.rows == old(table.rows)
    ensures resp.status == 201 ==>
      && RoleGuard.IsAdmin(sessionEmail, adminEmails) && body.Some? && resp.body.PropertyBody?
      && resp.body.property.id == freshId
      && table.rows == old(table.rows) + [resp.body.property]
  {
    if !(sessionEmail.Some? && sessionEmail.value != "") || !RoleGuard.IsAdmin(sessionEmail, adminEmails) {
      return Forbidden;
    }
    if body.None? {
      return Response(400, ErrorBody("Invalid request"));
    }
    var input := PostPayload(body.value, upload);
    if input.Err? {
      return Response(400, FailureBody(input.error));
    }
    var property := CreatePropertyService(table, input.value, isUrl, freshId, now);
    resp := if property.Ok? then Response(201, PropertyBody(property.value)) else Response(400, FailureBody(property.error));
  }

  /** The fields PATCH hands to the service: `images` is dropped unless a non-empty list is supplied, which is uploaded. */
  function PatchPayload(fields: RawInput, upload: string -> Result<string, Failure>): (r: Result<RawInput, Failure>)
    ensures !(fields.images.Some? && |fields.images.value| > 0) ==> r == Ok(fields.(images := None))
    ensures r.Ok? ==> r.value.(images := fields.images) == fields
  {
    if fields.images.Some? && |fields.images.value| > 0 then
      match UploadAll(fields.images.value, upload)
      case Ok(urls) => Ok(fields.(images := Some(urls)))
      case Err(e) => Err(e)
    else Ok(fields.(images := None))
  }

  /** An empty image list in a PATCH never clears the stored images: it is not passed on at all. */
  lemma PatchIgnoresEmptyImages(fields: RawInput, upload: string -> Result<string, Failure>)
    requires fields.images == Some([])
    ensures PatchPayload(fields, upload) == Ok(fields.(images := None))
  {
  }

  /** PATCH: admins only; an id is required; 200 with the updated row, 400 on any failure. */
  method Patch(table: PropertyTable, sessionEmail: Option<string>, adminEmails: seq<string>, body: Option<PatchBody>,
               upload: string -> Result<string, Failure>, isUrl: string -> bool, now: Timestamp)
    returns (resp: Response)
    modifies table
    ensures !RoleGuard.IsAdmin(sessionEmail, adminEmails) ==> resp == Forbidden
    ensures RoleGuard.IsAdmin(sessionEmail, adminEmails) && body.Some? && !Truthy(body.value.id) ==> resp == IdRequired
    ensures RoleGuard.IsAdmin(sessionEmail, adminEmails) && body.Some? && Truthy(body.value.id) && PatchPayload(body.value.fields, upload).Err? ==>
      resp == Response(400, FailureBody(PatchPayload(body.value.fields, upload).error))
    ensures RoleGuard.IsAdmin(sessionEmail, adminEmails) && body.Some? && Truthy(body.value.id) && PatchPayload(body.value.fields, upload).Ok? ==>
      (resp.status == 200 <==> UpdateSucceeds(old(table.rows), body.value.id.value, PatchPayload(body.value.fields, upload).value, isUrl, now))
    ensures resp.status == 200 || resp.status == 400 || resp.status == 403
    ensures resp.status != 200 ==> table.rows == old(table.rows)
    ensures resp.status == 200 ==>
      && RoleGuard.IsAdmin(sessionEmail, adminEmails) && body.Some? && Truthy(body.value.id)
      && resp.body.PropertyBody? && resp.body.property.id == body.value.id.value
      && table.rows == Replaced(old(table.rows), body.value.id.value, resp.body.property)
  {
    if !(sessionEmail.Some? && sessionEmail.value != "") || !RoleGuard.IsAdmin(sessionEmail, adminEmails) {
      return Forbidden;
    }
    if body.None? {
      return Response(400, ErrorBody("Invalid request"));
    }
    var id := body.value.id;
    if !(id.Some? && id.value != "") {
      return IdRequired;
    }
    var payload := PatchPayload(body.value.fields, upload);
    if payload.Err? {
      return Response(400, FailureBody(payload.error));
    }
    var property := UpdatePropertyService(table, id.value, payload.value, isUrl, now);
    resp := if property.Ok? then Response(200, PropertyBody(property.value)) else Response(400, FailureBody(property.error));
  }

  /** DELETE: admins only; an id is required; the row is soft-deleted directly, without the existence check of the service. */
  method Delete(table: PropertyTable, sessionEmail: Option<string>, adminEmails: seq<string>, idParam: Option<string>)
    returns (resp: Response)
    modifies table
    ensures !RoleGuard.IsAdmin(sessionEmail, adminEmails) ==> resp == Forbidden && table.rows == old(table.rows)
    ensures RoleGuard.IsAdmin(sessionEmail, adminEmails) && !Truthy(idParam) ==> resp == IdRequired && table.rows == old(table.rows)
    ensures RoleGuard.IsAdmin(sessionEmail, adminEmails) && Truthy(idParam) ==>
      resp == Response(200, SuccessBody) && table.rows == SoftDeleted(old(table.rows), idParam.value)
  {
    if !(sessionEmail.Some? && sessionEmail.value != "") || !RoleGuard.IsAdmin(sessionEmail, adminEmails) {
      return Forbidden;
    }
    if !(idParam.Some? && idParam.value != "") {
      return IdRequired;
    }
    table.DeleteProperty(idParam.value);
    resp := Response(200, SuccessBody);
  }
}
