/**
 * phone_finder/cli.py: the decision ladder of `main` once its arguments are
 * parsed. Printing is left out; what remains is the exit status and which
 * sources were consulted, in order.
 */
module Cli {
  import opened Wrappers
  import opened PyStr
  import opened PhoneLib
  import opened Lookup

  /** The parsed command line: --number, --contacts, --region, --use-numverify. */
  datatype Args = Args(number: string, contacts: string, region: string, useNumverify: bool)

  /** The process exit status and the sources main consulted. */
  datatype Outcome = Outcome(exitCode: int, consulted: seq<Source>)

  /** What the local lookup of main finds in an existing contacts file. */
  function LocalName(lib: Library, args: Args, file: ContactsFile): Option<string> {
    FindNameLocal(lib, args.number, ContactsFrom(lib, file.rows, DefaultColumns, args.region), args.region)
  }

  /** The NumVerify lookup main makes, with the key taken from NUMVERIFY_API_KEY. */
  function NumverifyAnswer(lib: Library, args: Args, env: Environment,
                           api: NumverifyQuery -> ApiReply<NumverifyBody>): LookupResult {
    LookupNumverify(ExternalLookup(env.numverifyApiKey, None, None), lib, args.number, args.region, api)
  }

  /**
   * main: 2 when the contacts file is missing (nothing looked up), 0 for a
   * non-empty local name, else 1 unless --use-numverify was given and
   * NumVerify answered with a hint.
   */
  function RunMain(lib: Library, args: Args, file: ContactsFile, env: Environment,
                   api: NumverifyQuery -> ApiReply<NumverifyBody>): (out: Outcome)
    ensures out.exitCode == 0 || out.exitCode == 1 || out.exitCode == 2
    ensures out.exitCode == 2 <==> !file.present
    ensures !file.present ==> out.consulted == []
    ensures file.present && Truthy(LocalName(lib, args, file)) ==> out == Outcome(0, [LocalContacts])
    // an empty name from a row with a blank name cell counts as a miss
    ensures file.present && LocalName(lib, args, file) == Some("") ==> out != Outcome(0, [LocalContacts])
    ensures file.present && !Truthy(LocalName(lib, args, file)) && !args.useNumverify ==>
      out == Outcome(1, [LocalContacts])
    ensures file.present && !Truthy(LocalName(lib, args, file)) && args.useNumverify ==>
      && out.consulted == [LocalContacts, NumVerify]
      && (out.exitCode == 0 <==>
            NumverifyAnswer(lib, args, env, api).ok && NumverifyAnswer(lib, args, env, api).value.Some?)
    ensures file.present && !Truthy(LocalName(lib, args, file)) && !Truthy(env.numverifyApiKey) ==>
      out.exitCode == 1
    // Twilio, Yelp, Google and OpenCorporates are never consulted
    ensures forall s :: s in out.consulted ==> s == LocalContacts || s == NumVerify
  {
    if !file.present then Outcome(2, [])
    else
      var name := LocalName(lib, args, file);
      if Truthy(name) then Outcome(0, [LocalContacts])
      else if args.useNumverify then
        var answer := NumverifyAnswer(lib, args, env, api);
        if answer.ok && Truthy(answer.value) then Outcome(0, [LocalContacts, NumVerify])
        else Outcome(1, [LocalContacts, NumVerify])
      else Outcome(1, [LocalContacts])
  }
}
