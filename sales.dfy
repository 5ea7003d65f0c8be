/**
 * Sales: the sale entity with its column limits and range, the sale DTO with
 * its validation rules, and the `SaleType` enum as the integers it is
 * stored as.
 */
module Sales {
  import opened Wrappers
  import opened Text
  import opened Annotations
  import opened Calendar

  /** `SaleType`: which side of the deal the agent was on. */
  datatype SaleType = Buyer | Seller

  /** The integer an enum value is stored and converted as. */
  function SaleTypeToInt(t: SaleType): (n: int)
    ensures 0 <= n <= 1
  {
    match t
    case Buyer => 0
    case Seller => 1
  }

  /** The enum value an integer names, if any. */
  function SaleTypeFromInt(n: int): (t: Option<SaleType>)
    ensures t.Some? <==> 0 <= n <= 1
  {
    if n == 0 then Some(Buyer) else if n == 1 then Some(Seller) else None
  }

  /** Every sale type survives being stored as its integer and read back,
      and the two integers in use name exactly the two sale types. */
  lemma SaleTypeRoundTrip(t: SaleType, n: int)
    ensures SaleTypeFromInt(SaleTypeToInt(t)) == Some(t)
    ensures SaleTypeFromInt(n).Some? ==> SaleTypeToInt(SaleTypeFromInt(n).value) == n
  {
  }

  /** The sale entity. `ownedById` comes from `OwnerPropertyEntity`. */
  datatype Sale = Sale(
    id: int,
    ownedById: string,
    propertyId: Int32,
    clientId: Int32,
    saleType: SaleType,
    closingDate: DateTime,
    salePrice: Decimal,
    commissionRate: Decimal)

  /** `default(DateTime)`: midnight on 1 January of year 1. */
  const MinDate: DateTime := DateTime(1, 1, 1, 0)

  /** `new Sale(ownedById)`: the owner is the argument; every other property
      has its type's default, so the sale type is Buyer. */
  function NewSale(ownedById: string): (s: Sale)
    ensures s.ownedById == ownedById
    ensures s.saleType == Buyer && s.salePrice == Decimal(0) && s.commissionRate == Decimal(0)
    ensures s.id == 0 && s.propertyId == 0 && s.clientId == 0 && s.closingDate == MinDate
    ensures Valid(s.closingDate)
  {
    Sale(0, ownedById, 0, 0, Buyer, MinDate, Decimal(0), Decimal(0))
  }

  /** The entity's rules: the sale price fits `decimal(18, 2)`, and the
      commission rate fits `decimal(5, 4)` and lies in [0, 1]. */
  predicate SaleValid(s: Sale) {
    && FitsDecimal18x2(s.salePrice)
    && FitsDecimal5x4(s.commissionRate)
    && DecimalRange(Some(s.commissionRate), Whole(0), Whole(1))
  }

  /** A new sale satisfies the entity's rules. */
  lemma NewSaleIsValid(ownedById: string)
    ensures SaleValid(NewSale(ownedById))
  {
  }

  /** The sale DTO. */
  datatype SaleDto = SaleDto(
    id: int,
    ownedById: Option<string>,
    propertyId: Option<Int32>,
    clientId: Option<Int32>,
    saleType: SaleType,
    closingDate: DateTime,
    salePrice: Option<Decimal>,
    commissionRate: Option<Decimal>)

  /** `new SaleDto()`: `today` is what `DateTime.Today` returns. */
  function NewSaleDto(today: DateTime): (dto: SaleDto)
    ensures dto.closingDate == today && dto.saleType == Buyer && dto.id == 0
    ensures dto.ownedById.None? && dto.propertyId.None? && dto.clientId.None?
    ensures dto.salePrice.None? && dto.commissionRate.None?
  {
    SaleDto(0, None, None, None, Buyer, today, None, None)
  }

  /** `[Range(0, 100)]` on the commission rate, as written: the bounds are
      `int`s, so the rate is rounded to a whole number before the check. */
  predicate CommissionRateInRangeAsWritten(rate: Option<Decimal>) {
    IntRangeOnDecimal(rate, 0, 100)
  }

  /** The range the commission rate is meant to have: the fraction [0, 1]
      that the entity declares and the `decimal(5, 4)` column can hold. */
  predicate CommissionRateInRange(rate: Option<Decimal>) {
    DecimalRange(rate, Whole(0), Whole(1))
  }

  /** The annotations every DTO field but the commission rate's range
      carries: owner, property, client, price and rate are required, and the
      price lies in [0, 9999999999999999.99]. */
  predicate SaleDtoFieldsValid(dto: SaleDto) {
    && RequiredString(dto.ownedById)
    && RequiredValue(dto.propertyId)
    && RequiredValue(dto.clientId)
    && RequiredValue(dto.salePrice)
    && DecimalRange(dto.salePrice, Whole(0), MaxMoney())
    && RequiredValue(dto.commissionRate)
  }

  /** The DTO's annotations as declared, the rate checked by `[Range(0, 100)]`. */
  predicate SaleDtoValidAsWritten(dto: SaleDto) {
    SaleDtoFieldsValid(dto) && CommissionRateInRangeAsWritten(dto.commissionRate)
  }

  /** The DTO's annotations with the commission rate held to the range the
      entity declares. */
  predicate SaleDtoValid(dto: SaleDto) {
    SaleDtoFieldsValid(dto) && CommissionRateInRange(dto.commissionRate)
  }

  /** The corrected rule only narrows the declared one: every rate in [0, 1]
      rounds to 0 or 1, inside [0, 100], so no DTO the program accepts today
      that is meant to pass is turned away. */
  lemma CorrectedRuleNarrowsDeclared(dto: SaleDto)
    requires SaleDtoValid(dto)
    ensures SaleDtoValidAsWritten(dto)
  {
    var n := RoundHalfEven(dto.commissionRate.value);
    var u := dto.commissionRate.value.units;
    assert 0 <= u <= One;
    assert -One <= 2 * (u - n * One) <= One;
  }

  /** A DTO the declared rules accept, with a rate of 10, maps to a sale the
      entity's rules reject. */
  lemma AsWrittenValidDtoMapsToInvalidSale()
    ensures var dto := SaleDto(1, Some("agent"), Some(1), Some(1), Seller, MinDate, Some(Whole(250000)), Some(Whole(10)));
      SaleDtoValidAsWritten(dto) && !SaleValid(ToSale(dto))
  {
    assert !IsWhiteSpace("agent"[0]);
    CommissionRateAsWrittenAdmitsTen();
  }

  /** A rate of 10 (1000%) passes the range as written, though it does not
      fit the `decimal(5, 4)` column and breaks the entity's [0, 1] range. */
  lemma CommissionRateAsWrittenAdmitsTen()
    ensures CommissionRateInRangeAsWritten(Some(Whole(10)))
    ensures !FitsDecimal5x4(Whole(10))
    ensures !DecimalRange(Some(Whole(10)), Whole(0), Whole(1))
  {
    assert RoundHalfEven(Whole(10)) == 10;
  }

  /** The as-written range even admits rates just outside [0, 100]: -0.5
      rounds to 0 and 100.5 to 100. */
  lemma CommissionRateAsWrittenAdmitsRounded()
    ensures CommissionRateInRangeAsWritten(Some(Decimal(-One / 2)))
    ensures CommissionRateInRangeAsWritten(Some(Decimal(100 * One + One / 2)))
  {
    assert RoundHalfEven(Decimal(-One / 2)) == 0;
    assert RoundHalfEven(Decimal(100 * One + One / 2)) == 100;
  }

  /** `Mapping`: AutoMapper copies the DTO's properties onto the entity by
      name. Only a DTO with its required values present maps. */
  function ToSale(dto: SaleDto): (s: Sale)
    requires dto.ownedById.Some? && dto.propertyId.Some? && dto.clientId.Some?
    requires dto.salePrice.Some? && dto.commissionRate.Some?
    ensures s.id == dto.id && s.propertyId == dto.propertyId.value && s.clientId == dto.clientId.value
    ensures s.ownedById == dto.ownedById.value && s.saleType == dto.saleType && s.closingDate == dto.closingDate
    ensures Some(s.salePrice) == dto.salePrice && Some(s.commissionRate) == dto.commissionRate
  {
    Sale(dto.id, dto.ownedById.value, dto.propertyId.value, dto.clientId.value, dto.saleType,
         dto.closingDate, dto.salePrice.value, dto.commissionRate.value)
  }

  /** With the intended commission range, a valid DTO whose amounts carry no
      more decimals than their columns maps to a sale the entity's rules
      accept. */
  lemma ValidDtoMapsToValidSale(dto: SaleDto)
    requires SaleDtoValid(dto)
    requires HasTwoDecimalsAtMost(dto.salePrice.value) && HasFourDecimalsAtMost(dto.commissionRate.value)
    ensures SaleValid(ToSale(dto))
  {
    MoneyRangeIsColumnRange(dto.salePrice.value);
  }
}
