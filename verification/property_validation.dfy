/**
 * The listing schema (field rules for create, the all-optional variant for update) and the
 * status state machine.
 *
 * The request body is modelled as a record of optional, already well-typed fields; the URL
 * check that the schema applies to every image is the parameter `isUrl`.
 */
module PropertyValidation {
  import opened Wrappers
  import opened PropertyModel
  import Seqs

  /** A request body: every field may be missing. */
  datatype RawInput = RawInput(
    title: Option<string>,
    description: Option<string>,
    slug: Option<string>,
    propertyType: Option<string>,
    status: Option<string>,
    price: Option<int>,
    currency: Option<string>,
    county: Option<string>,
    town: Option<string>,
    area: Option<string>,
    coordinates: Option<Coordinates>,
    images: Option<seq<string>>,
    isFeatured: Option<bool>)

  /** The output of the create schema: required fields present, defaults applied. */
  datatype CreatePayload = CreatePayload(
    title: string,
    description: string,
    slug: string,
    propertyType: PropertyType,
    status: PropertyStatus,
    price: int,
    currency: string,
    county: string,
    town: Option<string>,
    area: Option<string>,
    coordinates: Option<Coordinates>,
    images: seq<string>,
    isFeatured: bool)

  /** The output of the update schema: only the fields the body carried. */
  datatype UpdatePayload = UpdatePayload(
    title: Option<string>,
    description: Option<string>,
    slug: Option<string>,
    propertyType: Option<PropertyType>,
    status: Option<PropertyStatus>,
    price: Option<int>,
    currency: Option<string>,
    county: Option<string>,
    town: Option<string>,
    area: Option<string>,
    coordinates: Option<Coordinates>,
    images: Option<seq<string>>,
    isFeatured: Option<bool>)

  const EmptyInput := RawInput(None, None, None, None, None, None, None, None, None, None, None, None, None)

  // ---------------------------------------------------------------- field rules

  predicate IsSlugChar(c: char)
  {
    ('a' <= c <= 'z') || ('0' <= c <= '9') || c == '-'
  }

  predicate TitleOk(t: string) { |t| >= 5 }

  predicate DescriptionOk(d: string) { |d| >= 20 }

  /** At least five characters, all from [a-z0-9-]. */
  predicate SlugOk(s: string)
  {
    |s| >= 5 && forall i :: 0 <= i < |s| ==> IsSlugChar(s[i])
  }

  predicate PriceOk(p: int) { p > 0 }

  predicate CurrencyOk(c: string) { c == "KES" }

  predicate CountyOk(c: string) { |c| >= 3 }

  /** At least one image, each a URL. */
  predicate ImagesOk(images: seq<string>, isUrl: string -> bool)
  {
    |images| >= 1 && forall i :: 0 <= i < |images| ==> isUrl(images[i])
  }

  /** Whether one field of the body passes; `partial` is the update schema, where a missing field passes. */
  predicate FieldOk(f: Field, raw: RawInput, isUrl: string -> bool, partial: bool)
  {
    match f
    case TitleField => if raw.title.None? then partial else TitleOk(raw.title.value)
    case DescriptionField => if raw.description.None? then partial else DescriptionOk(raw.description.value)
    case SlugField => if raw.slug.None? then partial else SlugOk(raw.slug.value)
    case TypeField => if raw.propertyType.None? then partial else ParseType(raw.propertyType.value).Some?
    case StatusField => raw.status.None? || ParseStatus(raw.status.value).Some?
    case PriceField => if raw.price.None? then partial else PriceOk(raw.price.value)
    case CurrencyField => if raw.currency.None? then partial else CurrencyOk(raw.currency.value)
    case CountyField => if raw.county.None? then partial else CountyOk(raw.county.value)
    case ImagesField => if raw.images.None? then partial else ImagesOk(raw.images.value, isUrl)
  }

  const AllFields: set<Field> :=
    {TitleField, DescriptionField, SlugField, TypeField, StatusField, PriceField, CurrencyField, CountyField, ImagesField}

  lemma AllFieldsListed(f: Field)
    ensures f in AllFields
  {
  }

  /** The fields that fail their rule. */
  function Issues(raw: RawInput, isUrl: string -> bool, partial: bool): (r: set<Field>)
    ensures forall f :: f in r <==> !FieldOk(f, raw, isUrl, partial)
  {
    forall f ensures f in AllFields { AllFieldsListed(f); }
    set f | f in AllFields && !FieldOk(f, raw, isUrl, partial)
  }

  lemma NoIssuesIsCreateRules(raw: RawInput, isUrl: string -> bool)
    ensures Issues(raw, isUrl, false) == {} <==> CreateRules(raw, isUrl)
  {
    var issues := Issues(raw, isUrl, false);
    if issues == {} {
      assert TitleField !in issues && DescriptionField !in issues && SlugField !in issues;
      assert TypeField !in issues && StatusField !in issues && PriceField !in issues;
      assert CurrencyField !in issues && CountyField !in issues && ImagesField !in issues;
    } else {
      var f :| f in issues;
    }
  }

  lemma NoIssuesIsUpdateRules(raw: RawInput, isUrl: string -> bool)
    ensures Issues(raw, isUrl, true) == {} <==> UpdateRules(raw, isUrl)
  {
    var issues := Issues(raw, isUrl, true);
    if issues == {} {
      assert TitleField !in issues && DescriptionField !in issues && SlugField !in issues;
      assert TypeField !in issues && StatusField !in issues && PriceField !in issues;
      assert CurrencyField !in issues && CountyField !in issues && ImagesField !in issues;
    } else {
      var f :| f in issues;
    }
  }

  // ---------------------------------------------------------------- the schemas, stated rule by rule

  /** Everything the create schema demands of a body. */
  predicate CreateRules(raw: RawInput, isUrl: string -> bool)
  {
    && raw.title.Some? && |raw.title.value| >= 5
    && raw.description.Some? && |raw.description.value| >= 20
    && raw.slug.Some? && SlugOk(raw.slug.value)
    && raw.propertyType.Some? && ParseType(raw.propertyType.value).Some?
    && (raw.status.Some? ==> ParseStatus(raw.status.value).Some?)
    && raw.price.Some? && raw.price.value > 0
    && raw.currency == Some("KES")
    && raw.county.Some? && |raw.county.value| >= 3
    && raw.images.Some? && ImagesOk(raw.images.value, isUrl)
  }

  /** Everything the update schema demands: each field that is present obeys its create rule. */
  predicate UpdateRules(raw: RawInput, isUrl: string -> bool)
  {
    && (raw.title.Some? ==> |raw.title.value| >= 5)
    && (raw.description.Some? ==> |raw.description.value| >= 20)
    && (raw.slug.Some? ==> SlugOk(raw.slug.value))
    && (raw.propertyType.Some? ==> ParseType(raw.propertyType.value).Some?)
    && (raw.status.Some? ==> ParseStatus(raw.status.value).Some?)
    && (raw.price.Some? ==> raw.price.value > 0)
    && (raw.currency.Some? ==> raw.currency.value == "KES")
    && (raw.county.Some? ==> |raw.county.value| >= 3)
    && (raw.images.Some? ==> ImagesOk(raw.images.value, isUrl))
  }

  /** `createPropertySchema.parse`. */
  function ValidateCreate(raw: RawInput, isUrl: string -> bool): (r: Result<CreatePayload, Failure>)
    ensures r.Ok? <==> CreateRules(raw, isUrl)
    ensures r.Err? ==> (r.error.Invalid? && r.error.fields != {}
                        && forall f :: f in r.error.fields <==> !FieldOk(f, raw, isUrl, false))
    ensures r.Ok? ==>
      && r.value.title == raw.title.value && r.value.description == raw.description.value
      && r.value.slug == raw.slug.value && TypeName(r.value.propertyType) == raw.propertyType.value
      && (raw.status.None? ==> r.value.status == Available)
      && (raw.status.Some? ==> StatusName(r.value.status) == raw.status.value)
      && r.value.price == raw.price.value && r.value.currency == "KES" && r.value.county == raw.county.value
      && r.value.town == raw.town && r.value.area == raw.area && r.value.coordinates == raw.coordinates
      && r.value.images == raw.images.value
      && r.value.isFeatured == (raw.isFeatured == Some(true))
  {
    NoIssuesIsCreateRules(raw, isUrl);
    var issues := Issues(raw, isUrl, false);
    if issues != {} then Err(Invalid(issues))
    else
      assert FieldOk(TypeField, raw, isUrl, false) && FieldOk(StatusField, raw, isUrl, false);
      Ok(CreatePayload(
        raw.title.value, raw.description.value, raw.slug.value,
        ParseType(raw.propertyType.value).value,
        if raw.status.None? then Available else ParseStatus(raw.status.value).value,
        raw.price.value, raw.currency.value, raw.county.value,
        raw.town, raw.area, raw.coordinates, raw.images.value,
        if raw.isFeatured.None? then false else raw.isFeatured.value))
  }

  /** `updatePropertySchema.parse`: the schema with every field optional, and no defaults applied. */
  function ValidateUpdate(raw: RawInput, isUrl: string -> bool): (r: Result<UpdatePayload, Failure>)
    ensures r.Ok? <==> UpdateRules(raw, isUrl)
    ensures r.Err? ==> (r.error.Invalid? && r.error.fields != {}
                        && forall f :: f in r.error.fields <==> !FieldOk(f, raw, isUrl, true))
    ensures r.Ok? ==>
      && r.value.title == raw.title && r.value.description == raw.description && r.value.slug == raw.slug
      && (r.value.propertyType.Some? <==> raw.propertyType.Some?)
      && (raw.propertyType.Some? ==> TypeName(r.value.propertyType.value) == raw.propertyType.value)
      && (r.value.status.Some? <==> raw.status.Some?)
      && (raw.status.Some? ==> StatusName(r.value.status.value) == raw.status.value)
      && r.value.price == raw.price && r.value.currency == raw.currency && r.value.county == raw.county
      && r.value.town == raw.town && r.value.area == raw.area && r.value.coordinates == raw.coordinates
      && r.value.images == raw.images && r.value.isFeatured == raw.isFeatured
  {
    NoIssuesIsUpdateRules(raw, isUrl);
    var issues := Issues(raw, isUrl, true);
    if issues != {} then Err(Invalid(issues))
    else
      assert FieldOk(TypeField, raw, isUrl, true) && FieldOk(StatusField, raw, isUrl, true);
      Ok(UpdatePayload(
        raw.title, raw.description, raw.slug,
        if raw.propertyType.None? then None else Some(ParseType(raw.propertyType.value).value),
        if raw.status.None? then None else Some(ParseStatus(raw.status.value).value),
        raw.price, raw.currency, raw.county, raw.town, raw.area, raw.coordinates, raw.images,
        raw.isFeatured))
  }

  // ---------------------------------------------------------------- properties of the schemas

  lemma CreateRejectsNonPositivePrice(raw: RawInput, isUrl: string -> bool)
    requires raw.price.Some? && raw.price.value <= 0
    ensures ValidateCreate(raw, isUrl).Err? && PriceField in ValidateCreate(raw, isUrl).error.fields
  {
  }

  lemma CreateRejectsNoImages(raw: RawInput, isUrl: string -> bool)
    requires raw.images.None? || raw.images == Some([])
    ensures ValidateCreate(raw, isUrl).Err? && ImagesField in ValidateCreate(raw, isUrl).error.fields
  {
  }

  lemma CreateRejectsOtherCurrency(raw: RawInput, isUrl: string -> bool)
    requires raw.currency != Some("KES")
    ensures ValidateCreate(raw, isUrl).Err? && CurrencyField in ValidateCreate(raw, isUrl).error.fields
  {
  }

  /** The slug rule: accepted exactly when at least five characters long and URL-safe. */
  lemma SlugRule(raw: RawInput, isUrl: string -> bool)
    requires raw.slug.Some?
    ensures SlugField !in Issues(raw, isUrl, false) <==>
      |raw.slug.value| >= 5 && forall i :: 0 <= i < |raw.slug.value| ==> IsSlugChar(raw.slug.value[i])
  {
  }

  lemma CreateRequiresMinimumLengths(raw: RawInput, isUrl: string -> bool)
    requires ValidateCreate(raw, isUrl).Ok?
    ensures |raw.title.value| >= 5 && |raw.description.value| >= 20 && |raw.county.value| >= 3
  {
  }

  /** Missing status defaults to available, missing featured flag to false. */
  lemma CreateDefaults(raw: RawInput, isUrl: string -> bool)
    requires ValidateCreate(raw, isUrl).Ok? && raw.status.None? && raw.isFeatured.None?
    ensures ValidateCreate(raw, isUrl).value.status == Available
    ensures !ValidateCreate(raw, isUrl).value.isFeatured
  {
  }

  /** A body without any field passes the update schema. */
  lemma UpdateAcceptsEmptyBody(isUrl: string -> bool)
    ensures ValidateUpdate(EmptyInput, isUrl) == Ok(UpdatePayload(None, None, None, None, None, None, None, None, None, None, None, None, None))
  {
  }

  /** `sub` carries some of the fields of `raw`, unchanged. */
  predicate SubsetOf(sub: RawInput, raw: RawInput)
  {
    && (sub.title.None? || sub.title == raw.title)
    && (sub.description.None? || sub.description == raw.description)
    && (sub.slug.None? || sub.slug == raw.slug)
    && (sub.propertyType.None? || sub.propertyType == raw.propertyType)
    && (sub.status.None? || sub.status == raw.status)
    && (sub.price.None? || sub.price == raw.price)
    && (sub.currency.None? || sub.currency == raw.currency)
    && (sub.county.None? || sub.county == raw.county)
    && (sub.town.None? || sub.town == raw.town)
    && (sub.area.None? || sub.area == raw.area)
    && (sub.coordinates.None? || sub.coordinates == raw.coordinates)
    && (sub.images.None? || sub.images == raw.images)
    && (sub.isFeatured.None? || sub.isFeatured == raw.isFeatured)
  }

  /** Any subset of the fields of a body the create schema accepts passes the update schema. */
  lemma UpdateAcceptsAnySubsetOfValid(raw: RawInput, sub: RawInput, isUrl: string -> bool)
    requires ValidateCreate(raw, isUrl).Ok? && SubsetOf(sub, raw)
    ensures ValidateUpdate(sub, isUrl).Ok?
  {
  }

  /** A present field that breaks its create rule is rejected by the update schema too. */
  lemma UpdateChecksPresentFields(raw: RawInput, isUrl: string -> bool, f: Field)
    requires !FieldOk(f, raw, isUrl, true)
    ensures ValidateUpdate(raw, isUrl).Err? && f in ValidateUpdate(raw, isUrl).error.fields
    ensures !FieldOk(f, raw, isUrl, false)
  {
  }

  // ---------------------------------------------------------------- status state machine

  function AllowedTransitions(current: PropertyStatus): seq<PropertyStatus>
  {
    match current
    case Draft => [Available, Reserved]
    case Available => [Sold, Reserved]
    case Reserved => [Available, Sold]
    case Sold => []
  }

  /** The six moves the state machine allows. */
  const TransitionPairs: set<(PropertyStatus, PropertyStatus)> := {
    (Draft, Available), (Draft, Reserved),
    (Available, Sold), (Available, Reserved),
    (Reserved, Available), (Reserved, Sold)
  }

  /** `validateStatusTransition`: passes for the six listed moves and throws for every other pair. */
  function ValidateStatusTransition(current: PropertyStatus, next: PropertyStatus): (r: Result<(), Failure>)
    ensures r.Ok? <==> (current, next) in TransitionPairs
    ensures r.Err? ==> r.error == Message("Invalid status transition: " + StatusName(current) + " \U{2192} " + StatusName(next))
  {
    if next in AllowedTransitions(current) then Ok(())
    else Err(Message("Invalid status transition: " + StatusName(current) + " \U{2192} " + StatusName(next)))
  }

  lemma SoldIsTerminal(next: PropertyStatus)
    ensures ValidateStatusTransition(Sold, next).Err?
  {
  }

  lemma NoTransitionToDraft(current: PropertyStatus)
    ensures ValidateStatusTransition(current, Draft).Err?
  {
  }

  lemma NoSelfTransition(s: PropertyStatus)
    ensures ValidateStatusTransition(s, s).Err?
  {
  }

  /** Every status except sold has exactly two successors. */
  lemma TwoSuccessorsUnlessSold(s: PropertyStatus)
    requires s != Sold
    ensures |AllowedTransitions(s)| == 2
  {
  }
}
