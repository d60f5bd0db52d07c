/**
 * phone_finder/web.py: the decision ladder of the `index` view. Flask,
 * templates and the /health route are left out; what remains is the page
 * the view renders (or the server error it raises) and which sources it
 * consulted, in order.
 */
module Web {
  import opened Wrappers
  import opened PyStr
  import opened PhoneLib
  import opened Lookup

  /** The request: a GET, or a POST whose form may lack the "number" field. */
  datatype Request = Get | Post(numberField: Option<string>)

  /** The app config values the view reads: CONTACTS_PATH and DEFAULT_REGION. */
  datatype Config = Config(contactsPath: string, defaultRegion: string)

  /** The `result` dict: {found: True, name} or {found: False}. */
  datatype Verdict = Found(name: string) | NotFound

  /** The template variables result, hint, error and number. */
  datatype Page = Page(result: Option<Verdict>, hint: Option<string>, error: Option<string>, number: string)

  /**
   * The view either renders the page or raises; it raises when the Twilio
   * adapter returns None and the tuple unpacking fails.
   */
  datatype Outcome = Rendered(page: Page, consulted: seq<Source>) | ServerError(consulted: seq<Source>)

  /** The submitted number: the form field, "" when missing, trimmed. */
  function SubmittedNumber(numberField: Option<string>): string {
    Strip(numberField.GetOr(""))
  }

  /** The local lookup of the view for a submitted number. */
  function LocalName(lib: Library, config: Config, file: ContactsFile, number: string): Option<string> {
    FindNameLocal(lib, number, ContactsFrom(lib, file.rows, DefaultColumns, config.defaultRegion), config.defaultRegion)
  }

  /** The adapter object the view builds from the environment. */
  function AdapterOf(env: Environment): ExternalLookup {
    ExternalLookup(env.numverifyApiKey, env.twilioAccountSid, env.twilioAuthToken)
  }

  /** Twilio credentials are usable: the adapter would fall off its end. */
  predicate TwilioConfigured(env: Environment) {
    Truthy(env.twilioAccountSid) && Truthy(env.twilioAuthToken)
  }

  /**
   * The branch ladder of index over what its calls returned: whether the
   * contacts file exists, the local name, Twilio's result, whether
   * NUMVERIFY_API_KEY is set and NumVerify's result. Each result is used
   * only on the path where index makes that call.
   */
  function Respond(request: Request, config: Config, filePresent: bool, local: Option<string>,
                   twilio: LookupResult, numverifyKeySet: bool, numverify: LookupResult): (out: Outcome)
    ensures request.Get? ==> out == Rendered(Page(None, None, None, ""), [])
    ensures request.Post? && out.Rendered? ==> out.page.number == SubmittedNumber(request.numberField)
    // a missing contacts file: error set, nothing looked up, no result
    ensures request.Post? && !filePresent ==>
      out == Rendered(Page(None, None, Some("Contacts file not found: " + config.contactsPath),
                           SubmittedNumber(request.numberField)), [])
    // a local hit: found, no provider queried
    ensures request.Post? && filePresent && Truthy(local) ==>
      out == Rendered(Page(Some(Found(local.value)), None, None, SubmittedNumber(request.numberField)),
                      [LocalContacts])
    // an adapter returning None makes the tuple unpacking raise
    ensures request.Post? && filePresent && !Truthy(local) && twilio.FellOffEnd? ==>
      out == ServerError([LocalContacts, Twilio])
    // a name from Twilio is shown as found, and NumVerify is not queried
    ensures request.Post? && filePresent && !Truthy(local) && twilio.Returned? && twilio.ok && Truthy(twilio.value) ==>
      out == Rendered(Page(Some(Found(twilio.value.value)), None, None, SubmittedNumber(request.numberField)),
                      [LocalContacts, Twilio])
    // without a name from Twilio: NumVerify is queried only with its key, and the result is {found: False}
    ensures request.Post? && filePresent && !Truthy(local) && twilio.Returned? && !(twilio.ok && Truthy(twilio.value)) ==>
      if !numverifyKeySet then
        out == Rendered(Page(Some(NotFound), None, None, SubmittedNumber(request.numberField)), [LocalContacts, Twilio])
      else if numverify.FellOffEnd? then
        out == ServerError([LocalContacts, Twilio, NumVerify])
      else
        out == Rendered(Page(Some(NotFound), numverify.value, None, SubmittedNumber(request.numberField)),
                        [LocalContacts, Twilio, NumVerify])
  {
    match request
    case Get => Rendered(Page(None, None, None, ""), [])
    case Post(numberField) =>
      var number := SubmittedNumber(numberField);
      if !filePresent then
        Rendered(Page(None, None, Some("Contacts file not found: " + config.contactsPath), number), [])
      else if Truthy(local) then
        Rendered(Page(Some(Found(local.value)), None, None, number), [LocalContacts])
      else
        match twilio
        case FellOffEnd => ServerError([LocalContacts, Twilio])
        case Returned(ok, remoteName) =>
          if ok && Truthy(remoteName) then
            Rendered(Page(Some(Found(remoteName.value)), None, None, number), [LocalContacts, Twilio])
          else if numverifyKeySet then
            match numverify
            case FellOffEnd => ServerError([LocalContacts, Twilio, NumVerify])
            case Returned(_, hint) =>
              Rendered(Page(Some(NotFound), hint, None, number), [LocalContacts, Twilio, NumVerify])
          else
            Rendered(Page(Some(NotFound), None, None, number), [LocalContacts, Twilio])
  }

  /** index raises only after a local miss, when an adapter returned None instead of a tuple. */
  lemma RespondRaisesOnlyOnNone(request: Request, config: Config, filePresent: bool, local: Option<string>,
      twilio: LookupResult, numverifyKeySet: bool, numverify: LookupResult)
    ensures Respond(request, config, filePresent, local, twilio, numverifyKeySet, numverify).ServerError? ==>
      request.Post? && filePresent && !Truthy(local) && (twilio.FellOffEnd? || numverify.FellOffEnd?)
  {
  }

  /** A name shown as found is the directory's or the one Twilio returned. */
  lemma RespondFoundNameSource(request: Request, config: Config, filePresent: bool, local: Option<string>,
      twilio: LookupResult, numverifyKeySet: bool, numverify: LookupResult)
    ensures var out := Respond(request, config, filePresent, local, twilio, numverifyKeySet, numverify);
      out.Rendered? && out.page.result.Some? && out.page.result.value.Found? ==>
        || (Truthy(local) && local.value == out.page.result.value.name)
        || (twilio.Returned? && twilio.ok && twilio.value == Some(out.page.result.value.name))
  {
  }

  /** NumVerify is asked only after the directory and Twilio, and only with its key. */
  lemma RespondNumverifyLast(request: Request, config: Config, filePresent: bool, local: Option<string>,
      twilio: LookupResult, numverifyKeySet: bool, numverify: LookupResult)
    ensures var out := Respond(request, config, filePresent, local, twilio, numverifyKeySet, numverify);
      NumVerify in out.consulted ==> numverifyKeySet && out.consulted == [LocalContacts, Twilio, NumVerify]
  {
    assert NumVerify !in [LocalContacts, Twilio] && NumVerify !in [LocalContacts];
  }

  /** A hint is shown only with {found: False}, and it is NumVerify's. */
  lemma RespondHintOnlyWhenNotFound(request: Request, config: Config, filePresent: bool, local: Option<string>,
      twilio: LookupResult, numverifyKeySet: bool, numverify: LookupResult)
    ensures var out := Respond(request, config, filePresent, local, twilio, numverifyKeySet, numverify);
      out.Rendered? && out.page.hint.Some? ==>
        && out.page.result == Some(NotFound) && NumVerify in out.consulted
        && numverify.Returned? && out.page.hint == numverify.value
  {
  }

  /** An error page shows no result and consulted nothing. */
  lemma RespondErrorPageIsEmpty(request: Request, config: Config, filePresent: bool, local: Option<string>,
      twilio: LookupResult, numverifyKeySet: bool, numverify: LookupResult)
    ensures var out := Respond(request, config, filePresent, local, twilio, numverifyKeySet, numverify);
      out.Rendered? && out.page.error.Some? ==> out.page.result.None? && out.consulted == []
  {
  }

  /** The number index works with: the trimmed form field on POST, "" on GET. */
  function RequestNumber(request: Request): string {
    match request
    case Get => ""
    case Post(numberField) => SubmittedNumber(numberField)
  }

  /**
   * index: the ladder fed with the real lookups of the submitted number,
   * the contacts directory, then Twilio, then NumVerify.
   */
  function Index(lib: Library, config: Config, request: Request, file: ContactsFile, env: Environment,
                 api: NumverifyQuery -> ApiReply<NumverifyBody>): (out: Outcome)
    // with a local miss, usable Twilio credentials make the view raise
    ensures out.ServerError? <==>
      && request.Post? && file.present
      && !Truthy(LocalName(lib, config, file, RequestNumber(request)))
      && TwilioConfigured(env)
    // Twilio never supplies a name, so a found name is always a local one
    ensures out.Rendered? && out.page.result.Some? && out.page.result.value.Found? ==>
      LocalName(lib, config, file, RequestNumber(request)) == Some(out.page.result.value.name)
    // the hint shown is NumVerify's, queried with the key from the environment
    ensures out.Rendered? && out.page.hint.Some? ==>
      && Truthy(env.numverifyApiKey)
      && out.page.hint == LookupNumverify(AdapterOf(env), lib, RequestNumber(request), config.defaultRegion, api).value
  {
    var number := RequestNumber(request);
    var ext := AdapterOf(env);
    Respond(request, config, file.present, LocalName(lib, config, file, number),
            LookupTwilio(ext, env, number, config.defaultRegion), Truthy(env.numverifyApiKey),
            LookupNumverify(ext, lib, number, config.defaultRegion, api))
  }
}
