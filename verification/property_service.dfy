/**
 * The listing service: the business rules between the schema and the table. The clock (`now`)
 * and the id generator (`freshId`) are parameters.
 */
module PropertyService {
  import opened Wrappers
  import opened PropertyModel
  import opened PropertyValidation
  import opened PropertyRepository

  const SlugTaken := "Property slug already exists"
  const LandNeedsArea := "Land listings must include plot size / area"
  const InvalidPrice := "Invalid price"

  /** A stored listing that meets every rule of the create schema. */
  predicate MeetsSchema(p: Property, isUrl: string -> bool)
  {
    && TitleOk(p.title) && DescriptionOk(p.description) && SlugOk(p.slug)
    && PriceOk(p.price) && CurrencyOk(p.currency) && CountyOk(p.county)
    && ImagesOk(p.images, isUrl)
  }

  // ---------------------------------------------------------------- public reads

  /**
   * `getLatestProperties`: the first page of the unfiltered listing, six rows unless told otherwise.
   * It goes through the paginator as written, so a zero limit gives no rows and a negative one fails.
   */
  method GetLatestProperties(table: PropertyTable, limit: Option<int>) returns (r: Result<seq<Property>, Failure>)
    ensures var n := if limit.Some? then limit.value else 6;
      var listing := Listing(table.rows, None, NoFilters);
      && (r.Ok? <==> n >= 0)
      && (r.Ok? ==> r.value == if n < |listing| then listing[..n] else listing)
  {
    var n := if limit.Some? then limit.value else 6;
    var page := table.GetPropertiesPaginated(n, None, NoFilters);
    if page.Err? {
      return Err(page.error);
    }
    r := Ok(page.value.properties);
  }

  /** `getPublicPropertyBySlug`: the lookup with every failure turned into "not found". */
  method GetPublicPropertyBySlug(table: PropertyTable, slug: string) returns (r: Option<Property>)
    ensures r.Some? <==> |Selected(SlugQuery(slug), table.rows)| == 1
    ensures r.Some? ==> r.value in table.rows && r.value.slug == slug && r.value.status == Available
  {
    var found := table.GetPropertyBySlug(slug);
    r := if found.Ok? then Some(found.value) else None;
  }

  // ---------------------------------------------------------------- create

  /**
   * The slug check as written: the "already exists" error is thrown inside the `try` whose bare
   * `catch` also swallows a failed lookup, so it never reaches the caller.
   */
  function SlugCheckAsWritten(lookup: Result<Property, Failure>): Result<(), Failure>
  {
    var attempt: Result<(), Failure> := if lookup.Ok? then Err(Message(SlugTaken)) else Err(lookup.error);
    if attempt.Err? then Ok(()) else attempt
  }

  lemma SlugCheckAsWrittenNeverRejects(lookup: Result<Property, Failure>)
    ensures lookup.Ok? ==> SlugCheckAsWritten(lookup).Ok?
    ensures SlugCheckAsWritten(lookup) == Ok(())
  {
  }

  /** The slug check as intended: an available listing with the slug blocks the create; a failed lookup means the slug is free. */
  function SlugCheck(lookup: Result<Property, Failure>): (r: Result<(), Failure>)
    ensures r.Err? <==> lookup.Ok?
    ensures r.Err? ==> r.error == Message(SlugTaken)
  {
    if lookup.Ok? then Err(Message(SlugTaken)) else Ok(())
  }

  /**
   * The record `createPropertyService` saves: the payload, a fresh id and both timestamps set to `now`.
   * As written, `isFeatured: payload.isFeatured ?? false` reads a key the parsed payload never carries
   * (the schema's key is `is_featured`), so the later key wins and the record is never featured.
   */
  function PrepareCreate(payload: CreatePayload, freshId: string, now: Timestamp): (r: Result<Property, Failure>)
    ensures r.Err? <==> payload.propertyType == Land && !Truthy(payload.area)
    ensures r.Err? ==> r.error == Message(LandNeedsArea)
    ensures r.Ok? ==> r.value == Property(
      freshId, payload.slug, payload.title, payload.description, payload.propertyType, payload.status,
      payload.price, payload.currency, payload.county, payload.town, payload.area, payload.coordinates,
      payload.images, false, None, None, now, now)
  {
    if payload.propertyType == Land && !(payload.area.Some? && payload.area.value != "") then
      Err(Message(LandNeedsArea))
    else
      Ok(Property(
        freshId, payload.slug, payload.title, payload.description, payload.propertyType, payload.status,
        payload.price, payload.currency, payload.county, payload.town, payload.area, payload.coordinates,
        payload.images, false, None, None, now, now))
  }

  /** As written, a body that asks for a featured listing still creates one that is not featured. */
  lemma CreateNeverFeatured(raw: RawInput, isUrl: string -> bool, freshId: string, now: Timestamp)
    requires raw.isFeatured == Some(true)
    requires ValidateCreate(raw, isUrl).Ok?
    requires PrepareCreate(ValidateCreate(raw, isUrl).value, freshId, now).Ok?
    ensures ValidateCreate(raw, isUrl).value.isFeatured
    ensures !PrepareCreate(ValidateCreate(raw, isUrl).value, freshId, now).value.isFeatured
  {
  }

  /** The record as intended: the same as `PrepareCreate`, but carrying the parsed featured flag. */
  function PrepareCreateCorrected(payload: CreatePayload, freshId: string, now: Timestamp): (r: Result<Property, Failure>)
    ensures r.Ok? <==> PrepareCreate(payload, freshId, now).Ok?
    ensures r.Err? ==> r == PrepareCreate(payload, freshId, now)
    ensures r.Ok? ==> r.value == PrepareCreate(payload, freshId, now).value.(isFeatured := payload.isFeatured)
  {
    if payload.propertyType == Land && !(payload.area.Some? && payload.area.value != "") then
      Err(Message(LandNeedsArea))
    else
      Ok(Property(
        freshId, payload.slug, payload.title, payload.description, payload.propertyType, payload.status,
        payload.price, payload.currency, payload.county, payload.town, payload.area, payload.coordinates,
        payload.images, payload.isFeatured, None, None, now, now))
  }

  /** A created record meets the schema and is available unless the body said otherwise; land has an area. */
  lemma CreatedRecordMeetsSchema(raw: RawInput, isUrl: string -> bool, freshId: string, now: Timestamp)
    requires ValidateCreate(raw, isUrl).Ok?
    requires PrepareCreate(ValidateCreate(raw, isUrl).value, freshId, now).Ok?
    ensures var p := PrepareCreate(ValidateCreate(raw, isUrl).value, freshId, now).value;
      && MeetsSchema(p, isUrl)
      && (raw.status.None? ==> p.status == Available)
      && (p.propertyType == Land ==> Truthy(p.area))
  {
  }

  /** With the corrected record, the listing is featured exactly when the body asked for it. */
  lemma CorrectedCreateKeepsFeatured(raw: RawInput, isUrl: string -> bool, freshId: string, now: Timestamp)
    requires ValidateCreate(raw, isUrl).Ok?
    requires PrepareCreateCorrected(ValidateCreate(raw, isUrl).value, freshId, now).Ok?
    ensures var p := PrepareCreateCorrected(ValidateCreate(raw, isUrl).value, freshId, now).value;
      && MeetsSchema(p, isUrl)
      && (p.isFeatured <==> raw.isFeatured == Some(true))
  {
  }

  /** Whether `createPropertyService` as written stores a listing: the body parses, land has an area and the id is new. */
  predicate CreateSucceeds(rows: seq<Property>, raw: RawInput, isUrl: string -> bool, freshId: string, now: Timestamp)
  {
    && ValidateCreate(raw, isUrl).Ok?
    && PrepareCreate(ValidateCreate(raw, isUrl).value, freshId, now).Ok?
    && !HasId(rows, freshId)
  }

  /**
   * `createPropertyService` as written: parse, look the slug up (a found slug is let through),
   * apply the land rule, then insert.
   */
  method CreatePropertyService(table: PropertyTable, raw: RawInput, isUrl: string -> bool, freshId: string, now: Timestamp)
    returns (r: Result<Property, Failure>)
    modifies table
    ensures ValidateCreate(raw, isUrl).Err? ==> r == Err(ValidateCreate(raw, isUrl).error)
    ensures ValidateCreate(raw, isUrl).Ok? && PrepareCreate(ValidateCreate(raw, isUrl).value, freshId, now).Err? ==>
      r == PrepareCreate(ValidateCreate(raw, isUrl).value, freshId, now)
    ensures ValidateCreate(raw, isUrl).Ok? && PrepareCreate(ValidateCreate(raw, isUrl).value, freshId, now).Ok? && HasId(old(table.rows), freshId) ==>
      r == Err(QueryFailed)
    ensures r.Ok? <==> CreateSucceeds(old(table.rows), raw, isUrl, freshId, now)
    ensures r.Err? ==> table.rows == old(table.rows)
    ensures r.Ok? ==>
      && r == PrepareCreate(ValidateCreate(raw, isUrl).value, freshId, now)
      && table.rows == old(table.rows) + [r.value]
  {
    var parsed := ValidateCreate(raw, isUrl);
    if parsed.Err? {
      return Err(parsed.error);
    }
    var payload := parsed.value;
    var existing := table.GetPropertyBySlug(payload.slug);
    var free := SlugCheckAsWritten(existing);
    assert free == Ok(()) by { SlugCheckAsWrittenNeverRejects(existing); }
    var property := PrepareCreate(payload, freshId, now);
    if property.Err? {
      return Err(property.error);
    }
    r := table.CreateProperty(property.value);
  }

  /** A slug that is already listed does not stop the create as written: the second listing is stored. */
  lemma DuplicateSlugIsStored(rows: seq<Property>, raw: RawInput, isUrl: string -> bool, freshId: string, now: Timestamp)
    requires CreateSucceeds(rows, raw, isUrl, freshId, now)
    requires |Selected(SlugQuery(ValidateCreate(raw, isUrl).value.slug), rows)| == 1
    ensures SlugCheckAsWritten(SingleRow(Selected(SlugQuery(ValidateCreate(raw, isUrl).value.slug), rows))) == Ok(())
    ensures SlugCheck(SingleRow(Selected(SlugQuery(ValidateCreate(raw, isUrl).value.slug), rows))).Err?
  {
    SlugCheckAsWrittenNeverRejects(SingleRow(Selected(SlugQuery(ValidateCreate(raw, isUrl).value.slug), rows)));
  }

  /**
   * `createPropertyService` as intended: a listed slug is refused with "Property slug already exists",
   * and the stored record carries the parsed featured flag.
   */
  method CreatePropertyServiceCorrected(table: PropertyTable, raw: RawInput, isUrl: string -> bool, freshId: string, now: Timestamp)
    returns (r: Result<Property, Failure>)
    modifies table
    ensures ValidateCreate(raw, isUrl).Err? ==> r == Err(ValidateCreate(raw, isUrl).error)
    ensures ValidateCreate(raw, isUrl).Ok? && |Selected(SlugQuery(ValidateCreate(raw, isUrl).value.slug), old(table.rows))| == 1 ==>
      r == Err(Message(SlugTaken))
    ensures r.Ok? <==>
      && CreateSucceeds(old(table.rows), raw, isUrl, freshId, now)
      && |Selected(SlugQuery(ValidateCreate(raw, isUrl).value.slug), old(table.rows))| != 1
    ensures r.Err? ==> table.rows == old(table.rows)
    ensures r.Ok? ==>
      && r == PrepareCreateCorrected(ValidateCreate(raw, isUrl).value, freshId, now)
      && table.rows == old(table.rows) + [r.value]
  {
    var parsed := ValidateCreate(raw, isUrl);
    if parsed.Err? {
      return Err(parsed.error);
    }
    var payload := parsed.value;
    var existing := table.GetPropertyBySlug(payload.slug);
    var free := SlugCheck(existing);
    if free.Err? {
      return Err(free.error);
    }
    var property := PrepareCreateCorrected(payload, freshId, now);
    if property.Err? {
      return Err(property.error);
    }
    r := table.CreateProperty(property.value);
  }

  // ---------------------------------------------------------------- update

  function Override<T>(current: T, supplied: Option<T>): T
  {
    if supplied.Some? then supplied.value else current
  }

  /** `{ ...existing, ...payload, updatedAt: now }`. */
  function Merge(existing: Property, payload: UpdatePayload, now: Timestamp): (r: Property)
    ensures r.id == existing.id && r.createdAt == existing.createdAt && r.updatedAt == now
    ensures r.metaTitle == existing.metaTitle && r.metaDescription == existing.metaDescription
  {
    existing.(
      title := Override(existing.title, payload.title),
      description := Override(existing.description, payload.description),
      slug := Override(existing.slug, payload.slug),
      propertyType := Override(existing.propertyType, payload.propertyType),
      status := Override(existing.status, payload.status),
      price := Override(existing.price, payload.price),
      currency := Override(existing.currency, payload.currency),
      county := Override(existing.county, payload.county),
      town := if payload.town.Some? then payload.town else existing.town,
      area := if payload.area.Some? then payload.area else existing.area,
      coordinates := if payload.coordinates.Some? then payload.coordinates else existing.coordinates,
      images := Override(existing.images, payload.images),
      isFeatured := Override(existing.isFeatured, payload.isFeatured),
      updatedAt := now)
  }

  const NoChanges := UpdatePayload(None, None, None, None, None, None, None, None, None, None, None, None, None)

  /** Absent fields keep their value and supplied ones win: an empty payload only refreshes `updatedAt`. */
  lemma MergeEmptyPayload(existing: Property, now: Timestamp)
    ensures Merge(existing, NoChanges, now) == existing.(updatedAt := now)
  {
  }

  /** Applying the same payload twice is applying it once. */
  lemma MergeIdempotent(existing: Property, payload: UpdatePayload, now: Timestamp)
    ensures Merge(Merge(existing, payload, now), payload, now) == Merge(existing, payload, now)
  {
  }

  /** Every supplied field overwrites and every absent one keeps the stored value. */
  lemma MergeFieldwise(existing: Property, payload: UpdatePayload, now: Timestamp)
    ensures var r := Merge(existing, payload, now);
      && r.title == (if payload.title.Some? then payload.title.value else existing.title)
      && r.description == (if payload.description.Some? then payload.description.value else existing.description)
      && r.slug == (if payload.slug.Some? then payload.slug.value else existing.slug)
      && r.propertyType == (if payload.propertyType.Some? then payload.propertyType.value else existing.propertyType)
      && r.status == (if payload.status.Some? then payload.status.value else existing.status)
      && r.price == (if payload.price.Some? then payload.price.value else existing.price)
      && r.currency == (if payload.currency.Some? then payload.currency.value else existing.currency)
      && r.county == (if payload.county.Some? then payload.county.value else existing.county)
      && r.town == (if payload.town.Some? then payload.town else existing.town)
      && r.area == (if payload.area.Some? then payload.area else existing.area)
      && r.coordinates == (if payload.coordinates.Some? then payload.coordinates else existing.coordinates)
      && r.images == (if payload.images.Some? then payload.images.value else existing.images)
      && r.isFeatured == (if payload.isFeatured.Some? then payload.isFeatured.value else existing.isFeatured)
  {
  }

  /** The business rules of `updatePropertyService` and the merged record. */
  function PrepareUpdate(existing: Property, payload: UpdatePayload, now: Timestamp): (r: Result<Property, Failure>)
    ensures payload.price.Some? && payload.price.value <= 0 ==> r == Err(Message(InvalidPrice))
    ensures r.Ok? ==> r.value == Merge(existing, payload, now)
    ensures r.Ok? <==>
      && (payload.price.None? || payload.price.value > 0)
      && (payload.status.None? || payload.status.value == existing.status
          || (existing.status, payload.status.value) in TransitionPairs)
  {
    if payload.price.Some? && payload.price.value <= 0 then Err(Message(InvalidPrice))
    else if payload.status.Some? && payload.status.value != existing.status then
      var checked := ValidateStatusTransition(existing.status, payload.status.value);
      if checked.Err? then Err(checked.error) else Ok(Merge(existing, payload, now))
    else Ok(Merge(existing, payload, now))
  }

  /** An update that keeps the status is never checked against the transition table. */
  lemma SameStatusSkipsTransitions(existing: Property, payload: UpdatePayload, now: Timestamp)
    requires payload.price.None? || payload.price.value > 0
    requires payload.status == Some(existing.status)
    ensures PrepareUpdate(existing, payload, now).Ok?
  {
  }

  /** An update may move a sold listing nowhere: every other status is refused with the transition message. */
  lemma SoldStaysSold(existing: Property, payload: UpdatePayload, now: Timestamp)
    requires existing.status == Sold && payload.status.Some? && payload.status.value != Sold
    ensures PrepareUpdate(existing, payload, now).Err?
  {
  }

  /** A valid update of a listing that meets the schema yields a listing that meets it, with the same id and creation time. */
  lemma UpdateKeepsSchema(existing: Property, raw: RawInput, isUrl: string -> bool, now: Timestamp)
    requires MeetsSchema(existing, isUrl)
    requires ValidateUpdate(raw, isUrl).Ok?
    requires PrepareUpdate(existing, ValidateUpdate(raw, isUrl).value, now).Ok?
    ensures var p := PrepareUpdate(existing, ValidateUpdate(raw, isUrl).value, now).value;
      MeetsSchema(p, isUrl) && p.id == existing.id && p.createdAt == existing.createdAt
  {
  }

  /** Whether `updatePropertyService` writes: the body parses, exactly one row has the id, and the rules pass for it. */
  predicate UpdateSucceeds(rows: seq<Property>, id: string, raw: RawInput, isUrl: string -> bool, now: Timestamp)
  {
    && ValidateUpdate(raw, isUrl).Ok?
    && |Selected(IdQuery(id), rows)| == 1
    && PrepareUpdate(Selected(IdQuery(id), rows)[0], ValidateUpdate(raw, isUrl).value, now).Ok?
  }

  /** `updatePropertyService`: parse the partial body, fetch the row, apply the rules, write the merge. */
  method UpdatePropertyService(table: PropertyTable, id: string, raw: RawInput, isUrl: string -> bool, now: Timestamp)
    returns (r: Result<Property, Failure>)
    modifies table
    ensures ValidateUpdate(raw, isUrl).Err? ==> r == Err(ValidateUpdate(raw, isUrl).error)
    ensures ValidateUpdate(raw, isUrl).Ok? && |Selected(IdQuery(id), old(table.rows))| != 1 ==> r == Err(NotSingle)
    ensures ValidateUpdate(raw, isUrl).Ok? && |Selected(IdQuery(id), old(table.rows))| == 1 ==>
      r == PrepareUpdate(Selected(IdQuery(id), old(table.rows))[0], ValidateUpdate(raw, isUrl).value, now)
    ensures r.Ok? <==> UpdateSucceeds(old(table.rows), id, raw, isUrl, now)
    ensures r.Err? ==> table.rows == old(table.rows)
    ensures r.Ok? ==>
      && ValidateUpdate(raw, isUrl).Ok?
      && |Selected(IdQuery(id), old(table.rows))| == 1
      && var existing := Selected(IdQuery(id), old(table.rows))[0];
      && PrepareUpdate(existing, ValidateUpdate(raw, isUrl).value, now) == Ok(r.value)
      && r.value.id == id
      && table.rows == Replaced(old(table.rows), id, r.value)
  {
    var parsed := ValidateUpdate(raw, isUrl);
    if parsed.Err? {
      return Err(parsed.error);
    }
    var existing := table.GetPropertyById(id);
    if existing.Err? {
      return Err(existing.error);
    }
    var updated := PrepareUpdate(existing.value, parsed.value, now);
    if updated.Err? {
      return Err(updated.error);
    }
    r := table.UpdateProperty(id, updated.value);
  }

  // ---------------------------------------------------------------- delete

  /** `deletePropertyService`: the row must exist; it then turns draft whatever its status. */
  method DeletePropertyService(table: PropertyTable, id: string) returns (r: Result<(), Failure>)
    modifies table
    ensures r.Ok? <==> |Selected(IdQuery(id), old(table.rows))| == 1
    ensures r.Ok? ==> table.rows == SoftDeleted(old(table.rows), id)
    ensures r.Err? ==> r.error == NotSingle && table.rows == old(table.rows)
  {
    var existing := table.GetPropertyById(id);
    if existing.Err? {
      return Err(existing.error);
    }
    table.DeleteProperty(id);
    r := Ok(());
  }

  /** The soft delete bypasses the state machine: a sold listing, which no update may leave, becomes a draft. */
  lemma DeleteBypassesTransitions(rows: seq<Property>, i: nat)
    requires i < |rows| && rows[i].status == Sold
    ensures ValidateStatusTransition(Sold, Draft).Err?
    ensures SoftDeleted(rows, rows[i].id)[i].status == Draft
  {
  }
}
