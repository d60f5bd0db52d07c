# phone-number-finder, modelled in Dafny

A model of the lookup core of `phone_finder`. It resolves a telephone number to a
name, first from a CSV contact directory and then through optional external
providers. The model covers:

- `lookup.py` (module `Lookup`):
  - number normalisation to E.164 (`normalize_number`);
  - building the contact directory from CSV rows (`load_contacts_csv`) and the
    exact-match local lookup (`find_name_local`);
  - the five `ExternalLookup` adapters (NumVerify, Twilio, Yelp, Google Places,
    OpenCorporates);
  - the free metadata record (`get_number_info`).
- `cli.py` (module `Cli`): the exit-status ladder of `main`.
- `web.py` (module `Web`): the result/hint/error ladder of the `index` view.

Supporting modules:

- `PhoneLib` states the interface of the `phonenumbers` library as a record of
  functions (`Library`). Every property holds for every such library.
- `PyStr` models the Python string operations the code relies on: `str.strip`,
  `str.join` and truthiness. It also defines `str.split`, which the code never
  calls, as the inverse of `join` that the round-trip lemmas use.
- `Wrappers` holds `Option` and `Result`.

Modelling choices:

- The environment variables are an explicit `Environment` value.
- Each HTTP request is a function parameter from the query the adapter builds to
  an `ApiReply`. `Failed` stands for every exception the adapter catches;
  `Decoded` carries the JSON body.
- NumVerify, Yelp and OpenCorporates each have a request function, which
  returns `None` exactly when no request is sent. `NumverifyRequest` and
  `YelpRequest` return `None` exactly for a missing key or an unparseable
  number. `OpenCorporatesRequest` has no key gate and returns `None` only for an
  unparseable number. NumVerify and OpenCorporates also have a separate extraction rule
  (`HintOf`, `TopCompany`); Yelp's extraction sits inside `LookupYelp`. Twilio
  and Google have neither, because their code stops at the credential gate.
- An adapter returns `Returned(ok, value)`, the Python tuple, or `FellOffEnd`.
  `FellOffEnd` is Python's implicit `None`. `lookup_twilio` and `lookup_google`
  give it whenever their credentials are set: their only reachable code is the
  credential gate. The lines after `lookup_opencorporates`'s last `return`
  (lookup.py:196-238) can never run.
- `ExternalLookup.__init__` only stores its three arguments, so it is the
  datatype `Lookup.ExternalLookup`.
- The entry points report an exit code, or the page they render (or that they
  raise), together with the sources they consulted, in order.
- No function chains all five providers. The CLI consults the directory and,
  on request, NumVerify. The web view consults the directory, then Twilio, then
  NumVerify.

## Model

| member | source | states |
|---|---|---|
| `Lookup.NormalizeNumber` | phone_finder/lookup.py:18-25 | fails exactly when the library's parse fails, with the message "Could not parse phone number '…': reason"; otherwise gives the E.164 format of the parsed number |
| `Lookup.NormalizeIgnoresValidity` | phone_finder/lookup.py:20-22 | the possible/valid check has no effect: normalisation is the same whatever the library says about possibility and validity |
| `PyStr.StripIsTrimmedInfix` | phone_finder/lookup.py:42-43 | `strip()` yields the infix between leading and trailing whitespace, which itself neither starts nor ends with whitespace |
| `Lookup.RowEntry` | phone_finder/lookup.py:40-51 | a row is skipped exactly when it lacks the phone or name column, its trimmed phone is empty, or that phone does not parse; otherwise it contributes (E.164 of trimmed phone, trimmed name) |
| `Lookup.LoadContactsCsv` | phone_finder/lookup.py:33-52 | FileNotFound(path) for a missing file, else the directory built by inserting every row's entry in turn (loop proved against `ContactsFrom`; its body for one row is the helper `ReadRow`, proved equal to `RowEntry`) |
| `Lookup.LastEntryWins` | phone_finder/lookup.py:48 | in the insert-or-overwrite fold, the last entry for a number is the one kept |
| `Lookup.LastRowWins` | phone_finder/lookup.py:42-48 | a duplicate number maps to the trimmed name of the last row that contributes it |
| `Lookup.EveryKeyFromAnEntry` | phone_finder/lookup.py:48 | every key of the fold comes from some entry, with that entry's name |
| `Lookup.EveryKeyFromARow` | phone_finder/lookup.py:40-48 | every key of the directory is the normalised trimmed phone of some row, and its value is that row's trimmed name |
| `Lookup.EmptyEntryIsInvisible` | phone_finder/lookup.py:40-51 | removing an entry-less row from the fold leaves the directory unchanged |
| `Lookup.SkippedRowIsInvisible` | phone_finder/lookup.py:40-51 | deleting a skipped row from the file leaves the directory unchanged |
| `Lookup.AdjacentEntriesCommute` | phone_finder/lookup.py:48 | two neighbouring entries for different numbers can be swapped without changing the fold |
| `Lookup.DistinctRowsCommute` | phone_finder/lookup.py:42-48 | apart from duplicates, row order does not matter: swapping neighbouring rows for different numbers gives the same directory |
| `Lookup.FindNameLocal` | phone_finder/lookup.py:60-64 | None when the query does not parse; otherwise exactly the directory's value under the query's E.164 key, None if absent (no fuzzy or prefix match) |
| `Lookup.LoadedRowIsFound` | phone_finder/lookup.py:42-64 | round trip: a row's trimmed phone, looked up with the same region, finds the trimmed name of the last row for that number |
| `Lookup.TestLocalLookup` | tests/test_lookup.py:8-17 | the one-row CSV "Test Person,+1 415 555 2671" loaded with region US finds "Test Person" again, for every library that parses the number |
| `Lookup.NumverifyRequest` | phone_finder/lookup.py:85-93 | no request exactly when the key is unset or empty or the number does not parse; otherwise the request carries the key and the E.164 number |
| `Lookup.HintOf` | phone_finder/lookup.py:98-105 | the hint is None exactly when none of carrier, line type, country is present; a hint is never empty |
| `Lookup.BuildHint` | phone_finder/lookup.py:98-105 | appending the present fields and joining them gives `HintOf` |
| `Lookup.HintRoundTrip` | phone_finder/lookup.py:98-105 | splitting the hint at "; " gives back the labelled fields in the fixed order carrier=, line_type=, country= (when no value holds a ';') |
| `Lookup.FullNumverifyHint` | phone_finder/lookup.py:98-105 | carrier Verizon, line type mobile, country United States give "carrier=Verizon; line_type=mobile; country=United States" |
| `PyStr.SplitJoin` | phone_finder/lookup.py:105 | `split` undoes `join` for a non-empty list whose parts do not hold the separator's first character |
| `Lookup.LookupNumverify` | phone_finder/lookup.py:80-108 | always a tuple; success exactly when a request is sent and answered; (False, None) without a key, for an unparseable number or on any failure; on success the hint of the reply |
| `Lookup.LookupTwilio` | phone_finder/lookup.py:110-119 | (False, None) when the SID or token (constructor's, else environment's) is missing; otherwise falls off the end and returns None, never a name |
| `Lookup.YelpRequest` | phone_finder/lookup.py:127-138 | no request exactly when YELP_API_KEY is unset or empty or the number does not parse; otherwise a Bearer header and the E.164 number |
| `Lookup.LookupYelp` | phone_finder/lookup.py:121-150 | (False, None) without a key, for an unparseable number or on failure; (True, first business's name) for a non-empty list; (True, None) for an empty or null list |
| `Lookup.LookupGoogle` | phone_finder/lookup.py:152-160 | (False, None) without GOOGLE_MAPS_API_KEY; None (no tuple) with it |
| `Lookup.OpenCorporatesRequest` | phone_finder/lookup.py:171-180 | no credential gate: a request for every parseable number; api_token is added exactly when a key is set |
| `Lookup.TopCompany` | phone_finder/lookup.py:185-192 | a null "results" makes the lookup fail; missing results or an empty or null companies list give (True, None); otherwise the top hit's company name |
| `Lookup.LookupOpenCorporates` | phone_finder/lookup.py:162-194 | (False, None) for an unparseable number, a failed request or a null results object; otherwise `TopCompany` of the reply |
| `Lookup.BoolText` | phone_finder/lookup.py:258-259 | is_possible and is_valid are the strings "True"/"False", "True" exactly for true |
| `Lookup.GetNumberInfo` | phone_finder/lookup.py:247-304 | an "error"-only record on parse failure. Otherwise exactly the eight keys. Region and description fail together. The carrier is never "". line_type is None only when the type query raises. timezones is None for a failed or empty zone list, else the ", "-join |
| `Lookup.TimezonesRoundTrip` | phone_finder/lookup.py:298-300 | the timezones text of a non-empty zone list splits back at ", " into that list (when no zone name holds a ',') |
| `Cli.RunMain` | phone_finder/cli.py:18-41 | exit 2 exactly for a missing contacts file, and nothing is looked up. A non-empty local name gives exit 0; an empty one is a miss. Without --use-numverify a miss gives exit 1 and no external lookup. With it, exit 0 iff NumVerify succeeds with a hint. No key means exit 1. Only the directory and NumVerify are ever consulted |
| `Web.Respond` | phone_finder/web.py:23-56 | each branch of the ladder: GET renders an empty page. A missing file sets error and looks nothing up. A local hit is found without providers. Twilio returning None raises. A Twilio name is shown as found, with NumVerify not queried. Otherwise the result is {found: False}: without NUMVERIFY_API_KEY after [directory, Twilio], with it after [directory, Twilio, NumVerify] and NumVerify's hint |
| `Web.RespondRaisesOnlyOnNone` | phone_finder/web.py:36-53 | the view raises only after a local miss, when Twilio or NumVerify returned None instead of a tuple |
| `Web.RespondFoundNameSource` | phone_finder/web.py:37-50 | a name shown as found is the directory's or the one Twilio returned |
| `Web.RespondNumverifyLast` | phone_finder/web.py:47-53 | NumVerify is asked only after the directory and Twilio, and only with NUMVERIFY_API_KEY set |
| `Web.RespondHintOnlyWhenNotFound` | phone_finder/web.py:51-56 | a hint is shown only with {found: False}, and it is NumVerify's |
| `Web.RespondErrorPageIsEmpty` | phone_finder/web.py:30-36 | an error page shows no result and consulted nothing |
| `Web.Index` | phone_finder/web.py:28-56 | with the real adapters: after a local miss the view raises exactly when Twilio credentials are set. A found name is always a local one. A hint is NumVerify's, queried only with NUMVERIFY_API_KEY set |

## Left out

- The `phonenumbers` library: parsing, E.164 formatting, validity, region, geocoder, carrier and time-zone data. These are the fields of `PhoneLib.Library`; no numbering plan is modelled.
- HTTP through `requests`: URLs, the 8-second timeout, status checks and JSON decoding. Each reply is an `ApiReply`, and `Failed` covers every exception the adapters catch, including a body whose shape makes the extraction raise. JSON values of a type other than string where a string is read are not modelled.
- Reading `os.environ`: the values are passed in as `Environment`; the web app's config (CONTACTS_PATH, DEFAULT_REGION) as `Web.Config`.
- File I/O and CSV tokenising: a file is modelled as an exists flag and its rows as string maps. A short row, whose missing cells `csv.DictReader` fills with None, would make `.strip()` raise; such rows are not modelled. Neither are unreadable files or decoding errors.
- Lookup.GetNumberInfo: `normalized` is never None in the model, because E.164 formatting of a parsed number is treated as total.
- Lookup.GetNumberInfo: the `str(nt)` fallback for an unmapped number type is not modelled. `NumberType` lists exactly the twelve types the map names.
- `is_possible_number` and `is_valid_number` raising: neither normalize_number nor get_number_info catches them, and they are treated as total.
- Flask app construction, template rendering, the `/health` route, argparse and its defaults, and all printing.
- The unreachable lines phone_finder/lookup.py:196-238. They are not behaviour of any adapter.
- The default region "TZ" of the lookup functions: every caller passes a region explicitly.
