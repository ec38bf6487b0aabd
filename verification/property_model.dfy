/**
 * The listing entity of the real-estate domain and the error values its operations produce.
 * Prices are whole numbers of Kenyan shillings and timestamps are integers; the database's
 * snake_case columns (`created_at`, `updated_at`, `is_featured`, `property_type`) are the
 * camelCase fields below.
 */
module PropertyModel {
  import opened Wrappers

  datatype PropertyType = Land | House | Apartment | Commercial | Vehicle | Other

  datatype PropertyStatus = Draft | Available | Reserved | Sold

  type Timestamp = int

  datatype Coordinates = Coordinates(lat: real, lng: real)

  datatype Property = Property(
    id: string,
    slug: string,
    title: string,
    description: string,
    propertyType: PropertyType,
    status: PropertyStatus,
    price: int,
    currency: string,
    county: string,
    town: Option<string>,
    area: Option<string>,
    coordinates: Option<Coordinates>,
    images: seq<string>,
    isFeatured: bool,
    metaTitle: Option<string>,
    metaDescription: Option<string>,
    createdAt: Timestamp,
    updatedAt: Timestamp)

  /** The fields of the listing schema that have a rule; validation errors name them. */
  datatype Field =
    | TitleField | DescriptionField | SlugField | TypeField | StatusField | PriceField
    | CurrencyField | CountyField | ImagesField

  /** What an operation can fail with: a schema rejection, a thrown message, a `.single()` lookup that
      did not find exactly one row, or a failed database request. */
  datatype Failure =
    | Invalid(fields: set<Field>)
    | Message(text: string)
    | NotSingle
    | QueryFailed

  function TypeName(t: PropertyType): string
  {
    match t
    case Land => "land"
    case House => "house"
    case Apartment => "apartment"
    case Commercial => "commercial"
    case Vehicle => "vehicle"
    case Other => "other"
  }

  function StatusName(s: PropertyStatus): string
  {
    match s
    case Draft => "draft"
    case Available => "available"
    case Reserved => "reserved"
    case Sold => "sold"
  }

  /** The enum check of the schema: only the six spellings of a property type are accepted. */
  function ParseType(s: string): (r: Option<PropertyType>)
    ensures forall t :: r == Some(t) <==> TypeName(t) == s
  {
    if s == "land" then Some(Land)
    else if s == "house" then Some(House)
    else if s == "apartment" then Some(Apartment)
    else if s == "commercial" then Some(Commercial)
    else if s == "vehicle" then Some(Vehicle)
    else if s == "other" then Some(Other)
    else None
  }

  /** The enum check of the schema: only the four spellings of a status are accepted. */
  function ParseStatus(s: string): (r: Option<PropertyStatus>)
    ensures forall t :: r == Some(t) <==> StatusName(t) == s
  {
    if s == "available" then Some(Available)
    else if s == "sold" then Some(Sold)
    else if s == "reserved" then Some(Reserved)
    else if s == "draft" then Some(Draft)
    else None
  }
}
