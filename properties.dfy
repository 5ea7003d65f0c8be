/**
 * Properties: the property entity and its DTO, their validation rules, the
 * one-line address both render, and the `PropertyType` enum.
 */
module Properties {
  import opened Wrappers
  import opened Text
  import opened Annotations
  import opened Calendar

  datatype PropertyType = SingleFamilyHome | Condo | Townhouse | Apartment | Land

  /** The integer an enum value is stored and converted as. */
  function PropertyTypeToInt(t: PropertyType): (n: int)
    ensures 0 <= n <= 4
  {
    match t
    case SingleFamilyHome => 0
    case Condo => 1
    case Townhouse => 2
    case Apartment => 3
    case Land => 4
  }

  /** The enum value an integer names, if any. */
  function PropertyTypeFromInt(n: int): (t: Option<PropertyType>)
    ensures t.Some? <==> 0 <= n <= 4
  {
    if n == 0 then Some(SingleFamilyHome)
    else if n == 1 then Some(Condo)
    else if n == 2 then Some(Townhouse)
    else if n == 3 then Some(Apartment)
    else if n == 4 then Some(Land)
    else None
  }

  /** Every property type survives being stored as its integer and read
      back, and the five integers in use name exactly the five types. */
  lemma PropertyTypeRoundTrip(t: PropertyType, n: int)
    ensures PropertyTypeFromInt(PropertyTypeToInt(t)) == Some(t)
    ensures PropertyTypeFromInt(n).Some? ==> PropertyTypeToInt(PropertyTypeFromInt(n).value) == n
  {
  }

  /** The details a property and its DTO share beyond the address. */
  datatype Details = Details(
    country: Option<string>,
    yearBuilt: Option<DateTime>,
    bedrooms: Option<Int32>,
    fullBathrooms: Option<Int32>,
    halfBathrooms: Option<Int32>,
    squareFootage: Option<Int32>,
    numberOfLevels: Option<Int32>,
    lotSize: Option<Int32>,
    propertyType: Option<PropertyType>,
    description: Option<string>)

  /** The rules both classes declare on those details: country at most 50
      characters; bedrooms and bathrooms 1 to 99; levels 1 to 9; square
      footage and lot size from 0 to `int.MaxValue`. */
  predicate DetailsValid(d: Details) {
    && MaxLength(d.country, 50)
    && IntRange(d.bedrooms, 1, 99)
    && IntRange(d.fullBathrooms, 1, 99)
    && IntRange(d.halfBathrooms, 1, 99)
    && IntRange(d.squareFootage, 0, IntMaxValue)
    && IntRange(d.numberOfLevels, 1, 9)
    && IntRange(d.lotSize, 0, IntMaxValue)
  }

  /** On a C# `int`, the range [0, int.MaxValue] only says "not negative". */
  lemma NonNegativeRangeIsSign(v: Option<Int32>)
    ensures IntRange(v, 0, IntMaxValue) <==> v.None? || v.value >= 0
  {
  }

  /** The property entity. Its constructor takes the four address parts, so
      none of them can be missing. */
  datatype Property = Property(id: int, street: string, city: string, state: string, zipCode: string, details: Details)

  /** `new Property(street, city, state, zipCode)`: the address as given, no
      other detail set. */
  function NewProperty(street: string, city: string, state: string, zipCode: string): (p: Property)
    ensures p.street == street && p.city == city && p.state == state && p.zipCode == zipCode
    ensures p.id == 0 && p.details == NoDetails() && DetailsValid(p.details)
  {
    Property(0, street, city, state, zipCode, NoDetails())
  }

  /** No detail set. */
  function NoDetails(): Details {
    Details(None, None, None, None, None, None, None, None, None, None)
  }

  /** The entity's rules: street at most 100, city 50, state 2 and ZIP code
      10 characters, and the detail rules. */
  predicate PropertyValid(p: Property) {
    && MaxLength(Some(p.street), 100)
    && MaxLength(Some(p.city), 50)
    && MaxLength(Some(p.state), 2)
    && MaxLength(Some(p.zipCode), 10)
    && DetailsValid(p.details)
  }

  /** `FullAddress`: "Street City, State Zip". */
  function AddressLine(street: string, city: string, state: string, zipCode: string): string {
    street + " " + city + ", " + state + " " + zipCode
  }

  function PropertyFullAddress(p: Property): string {
    AddressLine(p.street, p.city, p.state, p.zipCode)
  }

  /** The property DTO. */
  datatype PropertyDto = PropertyDto(
    id: int,
    street: Option<string>,
    city: Option<string>,
    state: Option<string>,
    zipCode: Option<string>,
    details: Details)

  /** The DTO's annotations: the four address parts are required and no
      longer than on the entity, and the detail rules. */
  predicate PropertyDtoValid(dto: PropertyDto) {
    && RequiredString(dto.street) && MaxLength(dto.street, 100)
    && RequiredString(dto.city) && MaxLength(dto.city, 50)
    && RequiredString(dto.state) && MaxLength(dto.state, 2)
    && RequiredString(dto.zipCode) && MaxLength(dto.zipCode, 10)
    && DetailsValid(dto.details)
  }

  /** The DTO's `FullAddress`: a null part renders as nothing. */
  function DtoFullAddress(dto: PropertyDto): string {
    AddressLine(Interpolated(dto.street), Interpolated(dto.city), Interpolated(dto.state), Interpolated(dto.zipCode))
  }

  /** The DTO's tests: "123 Main St", "Anytown", "NY", "12345". */
  lemma FullAddressTestCase()
    ensures DtoFullAddress(PropertyDto(0, Some("123 Main St"), Some("Anytown"), Some("NY"), Some("12345"), NoDetails()))
      == "123 Main St Anytown, NY 12345"
  {
  }

  /** `Mapping`: AutoMapper copies the DTO onto a property by name, through
      the constructor for the address parts. */
  function ToProperty(dto: PropertyDto): (p: Property)
    requires dto.street.Some? && dto.city.Some? && dto.state.Some? && dto.zipCode.Some?
    ensures p.details == dto.details && p.id == dto.id
    ensures p.street == dto.street.value && p.city == dto.city.value && p.state == dto.state.value && p.zipCode == dto.zipCode.value
  {
    NewProperty(dto.street.value, dto.city.value, dto.state.value, dto.zipCode.value).(id := dto.id, details := dto.details)
  }

  /** A DTO that passes validation maps to a property the entity's rules
      accept, with the same address line. */
  lemma ValidDtoMapsToValidProperty(dto: PropertyDto)
    requires PropertyDtoValid(dto)
    ensures PropertyValid(ToProperty(dto))
    ensures PropertyFullAddress(ToProperty(dto)) == DtoFullAddress(dto)
  {
  }

  /** The address line of a valid DTO is at most 166 UTF-16 code units: the
      four length limits plus the four characters of the separators. */
  lemma {:induction false} ValidAddressLineLength(dto: PropertyDto)
    requires PropertyDtoValid(dto)
    ensures Utf16Length(DtoFullAddress(dto)) <= 100 + 50 + 2 + 10 + 4
  {
    var s, c, st, z := dto.street.value, dto.city.value, dto.state.value, dto.zipCode.value;
    Utf16LengthAppend(s, " ");
    Utf16LengthAppend(s + " ", c);
    Utf16LengthAppend(s + " " + c, ", ");
    Utf16LengthAppend(s + " " + c + ", ", st);
    Utf16LengthAppend(s + " " + c + ", " + st, " ");
    Utf16LengthAppend(s + " " + c + ", " + st + " ", z);
  }
}
