/**
 * The interface of the `phonenumbers` library as the lookup code uses it.
 * The library itself is not modelled: a `Library` value bundles its
 * operations as functions, and every property proved about the lookup code
 * holds for every such bundle.
 */
module PhoneLib {
  import opened Wrappers

  /** A parsed number: country calling code and national significant number. */
  datatype PhoneNumber = PhoneNumber(countryCode: nat, nationalNumber: nat)

  /** A library call that either raises an exception or returns a value. */
  datatype LibCall<T> = Raises | Returns(value: T)

  /** phonenumbers.PhoneNumberType. */
  datatype NumberType =
    | FixedLine | Mobile | FixedLineOrMobile | TollFree | PremiumRate | SharedCost
    | Voip | PersonalNumber | Pager | Uan | Voicemail | Unknown

  datatype Library = Library(
    /** phonenumbers.parse(number, region); Failure carries str() of the NumberParseException */
    parse: (string, string) -> Result<PhoneNumber, string>,
    /** phonenumbers.format_number(pn, PhoneNumberFormat.E164) */
    formatE164: PhoneNumber -> string,
    isPossibleNumber: PhoneNumber -> bool,
    isValidNumber: PhoneNumber -> bool,
    /** phonenumbers.region_code_for_number, which may itself return None */
    regionCodeForNumber: PhoneNumber -> LibCall<Option<string>>,
    /** geocoder.description_for_number(pn, "en") */
    descriptionForNumber: PhoneNumber -> LibCall<string>,
    /** carrier.name_for_number(pn, "en") */
    carrierNameForNumber: PhoneNumber -> LibCall<string>,
    numberType: PhoneNumber -> LibCall<NumberType>,
    /** timezone.time_zones_for_number */
    timeZonesForNumber: PhoneNumber -> LibCall<seq<string>>)
}
