/**
 * Clients: the client DTO's validation rules and its one-line name and phone.
 */
module Clients {
  import opened Wrappers
  import opened Text
  import opened Annotations
  import opened Calendar

  /** The client DTO. */
  datatype ClientDto = ClientDto(
    id: int,
    firstName: Option<string>,
    lastName: Option<string>,
    phoneNumber: Option<string>,
    email: Option<string>,
    street: Option<string>,
    city: Option<string>,
    state: Option<string>,
    zipCode: Option<string>,
    country: Option<string>,
    birthdate: Option<DateTime>,
    occupation: Option<string>,
    employer: Option<string>,
    referredBy: Option<string>,
    notes: Option<string>)

  /** The DTO's annotations: first name, last name and phone number are
      required; the length limits are 100, 100 and 15 for those, 256 for the
      email, 100, 50, 2, 10 and 50 for the address parts, 50 for the
      occupation and 100 for the employer and the referrer. Birthdate and
      notes are unconstrained. */
  predicate ClientDtoValid(dto: ClientDto) {
    && RequiredString(dto.firstName) && MaxLength(dto.firstName, 100)
    && RequiredString(dto.lastName) && MaxLength(dto.lastName, 100)
    && RequiredString(dto.phoneNumber) && MaxLength(dto.phoneNumber, 15)
    && MaxLength(dto.email, 256)
    && MaxLength(dto.street, 100)
    && MaxLength(dto.city, 50)
    && MaxLength(dto.state, 2)
    && MaxLength(dto.zipCode, 10)
    && MaxLength(dto.country, 50)
    && MaxLength(dto.occupation, 50)
    && MaxLength(dto.employer, 100)
    && MaxLength(dto.referredBy, 100)
  }

  /** A DTO with the three required values and nothing else. */
  function NewClientDto(firstName: string, lastName: string, phoneNumber: string): (dto: ClientDto)
    ensures dto.id == 0
    ensures dto.firstName == Some(firstName) && dto.lastName == Some(lastName) && dto.phoneNumber == Some(phoneNumber)
    ensures dto.email.None? && dto.street.None? && dto.city.None? && dto.state.None? && dto.zipCode.None? && dto.country.None?
    ensures dto.birthdate.None? && dto.occupation.None? && dto.employer.None? && dto.referredBy.None? && dto.notes.None?
  {
    ClientDto(0, Some(firstName), Some(lastName), Some(phoneNumber), None, None, None, None, None, None, None, None, None, None, None)
  }

  /** Only the three required values and the lengths decide validity: the
      address, the contact details and the notes may all be absent. */
  lemma NewClientDtoValid(firstName: string, lastName: string, phoneNumber: string)
    requires HasText(Some(firstName)) && HasText(Some(lastName)) && HasText(Some(phoneNumber))
    requires Utf16Length(firstName) <= 100 && Utf16Length(lastName) <= 100 && Utf16Length(phoneNumber) <= 15
    ensures ClientDtoValid(NewClientDto(firstName, lastName, phoneNumber))
  {
  }

  /** `FullNameAndPhone`: "Last, First; Phone: Number", a null part
      rendering as nothing. */
  function FullNameAndPhone(dto: ClientDto): string {
    Interpolated(dto.lastName) + ", " + Interpolated(dto.firstName) + "; Phone: " + Interpolated(dto.phoneNumber)
  }

  /** The DTO's tests: John Doe, phone 1234567890. */
  lemma FullNameAndPhoneTestCase()
    ensures FullNameAndPhone(NewClientDto("John", "Doe", "1234567890")) == "Doe, John; Phone: 1234567890"
  {
  }

  /** The line for a valid DTO is at most 226 UTF-16 code units: the three
      length limits plus the eleven characters of the separators. */
  lemma {:induction false} ValidFullNameAndPhoneLength(dto: ClientDto)
    requires ClientDtoValid(dto)
    ensures Utf16Length(FullNameAndPhone(dto)) <= 100 + 100 + 15 + 11
  {
    var l, f, p := dto.lastName.value, dto.firstName.value, dto.phoneNumber.value;
    Utf16LengthAppend(l, ", ");
    Utf16LengthAppend(l + ", ", f);
    Utf16LengthAppend(l + ", " + f, "; Phone: ");
    Utf16LengthAppend(l + ", " + f + "; Phone: ", p);
  }
}
