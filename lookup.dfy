/**
 * phone_finder/lookup.py: number normalisation, the CSV contact directory,
 * the external provider adapters (ExternalLookup) and the free metadata
 * record (get_number_info).
 */
module Lookup {
  import opened Wrappers
  import opened PyStr
  import opened PhoneLib

  // ---------------------------------------------------------------------
  // normalize_number
  // ---------------------------------------------------------------------

  /**
   * normalize_number: the E.164 form of the parsed number, or the ValueError
   * message when the library cannot parse it. The possible/valid check in
   * normalize_number has no effect and is therefore not part of the body
   * (see NormalizeIgnoresValidity).
   */
  function NormalizeNumber(lib: Library, number: string, region: string): (r: Result<string, string>)
    ensures r.Failure? <==> lib.parse(number, region).Failure?
    ensures r.Success? ==> r.value == lib.formatE164(lib.parse(number, region).value)
    ensures r.Failure? ==>
      r.error == "Could not parse phone number '" + number + "': " + lib.parse(number, region).error
  {
    match lib.parse(number, region)
    case Failure(reason) => Failure("Could not parse phone number '" + number + "': " + reason)
    case Success(pn) => Success(lib.formatE164(pn))
  }

  /** Whatever the library says about possibility and validity, normalisation is the same. */
  lemma NormalizeIgnoresValidity(lib: Library, possible: PhoneNumber -> bool, valid: PhoneNumber -> bool,
                                 number: string, region: string)
    ensures NormalizeNumber(lib.(isPossibleNumber := possible, isValidNumber := valid), number, region)
         == NormalizeNumber(lib, number, region)
  {
  }

  // ---------------------------------------------------------------------
  // load_contacts_csv and find_name_local
  // ---------------------------------------------------------------------

  /** One csv.DictReader row: header name to cell text. */
  type Row = map<string, string>

  /** The CSV file as the loader sees it: whether it exists, and its rows. */
  datatype ContactsFile = ContactsFile(present: bool, rows: seq<Row>)

  /** The phone_column and name_column arguments. */
  datatype Columns = Columns(phone: string, name: string)

  const DefaultColumns := Columns("phone", "name")

  datatype LoadError = FileNotFound(path: string)

  /** A directory entry: normalised number and display name. */
  datatype Entry = Entry(number: string, name: string)

  /**
   * What one row contributes to the directory: nothing when a column is
   * missing, the trimmed phone is empty or does not parse; otherwise the
   * normalised trimmed phone with the trimmed name.
   */
  function RowEntry(lib: Library, row: Row, cols: Columns, region: string): (e: Option<Entry>)
    ensures e.None? <==>
      || cols.phone !in row || cols.name !in row
      || Strip(row[cols.phone]) == ""
      || lib.parse(Strip(row[cols.phone]), region).Failure?
    ensures e.Some? ==>
      e.value == Entry(lib.formatE164(lib.parse(Strip(row[cols.phone]), region).value), Strip(row[cols.name]))
  {
    if cols.phone !in row || cols.name !in row then None
    else
      var rawPhone := Strip(row[cols.phone]);
      var name := Strip(row[cols.name]);
      if rawPhone == "" then None
      else
        match NormalizeNumber(lib, rawPhone, region)
        case Failure(_) => None
        case Success(normalized) => Some(Entry(normalized, name))
  }

  /** Does this row contribute an entry for the normalised number n? */
  predicate RowHasNumber(lib: Library, row: Row, cols: Columns, region: string, n: string) {
    var e := RowEntry(lib, row, cols, region);
    e.Some? && e.value.number == n
  }

  /** The directory built from a sequence of row entries: each inserted or overwritten in turn. */
  function Directory(entries: seq<Option<Entry>>): map<string, string>
    decreases |entries|
  {
    if entries == [] then map[]
    else
      var before := Directory(entries[..|entries| - 1]);
      match entries[|entries| - 1]
      case None => before
      case Some(e) => before[e.number := e.name]
  }

  /** A per-row rule applied to every row in turn. */
  function MapRows(rule: Row -> Option<Entry>, rows: seq<Row>): (es: seq<Option<Entry>>)
    ensures |es| == |rows|
    ensures forall i :: 0 <= i < |rows| ==> es[i] == rule(rows[i])
  {
    seq(|rows|, i requires 0 <= i < |rows| => rule(rows[i]))
  }

  /** The per-row rule of load_contacts_csv. */
  function RowRule(lib: Library, cols: Columns, region: string): Row -> Option<Entry> {
    row => RowEntry(lib, row, cols, region)
  }

  /** The entries the rows contribute, row by row. */
  function EntriesOf(lib: Library, rows: seq<Row>, cols: Columns, region: string): (es: seq<Option<Entry>>)
    ensures |es| == |rows|
    ensures forall i :: 0 <= i < |rows| ==> es[i] == RowEntry(lib, rows[i], cols, region)
  {
    MapRows(RowRule(lib, cols, region), rows)
  }

  /** The directory load_contacts_csv builds from the rows of an existing file. */
  function ContactsFrom(lib: Library, rows: seq<Row>, cols: Columns, region: string): map<string, string> {
    Directory(EntriesOf(lib, rows, cols, region))
  }

  /**
   * load_contacts_csv: FileNotFoundError when the file is absent, otherwise
   * the directory built row by row.
   */
  method LoadContactsCsv(lib: Library, path: string, file: ContactsFile, cols: Columns, region: string)
    returns (r: Result<map<string, string>, LoadError>)
    ensures !file.present ==> r == Failure(FileNotFound(path))
    ensures file.present ==> r == Success(ContactsFrom(lib, file.rows, cols, region))
  {
    if !file.present {
      return Failure(FileNotFound(path));
    }
    ghost var entries := EntriesOf(lib, file.rows, cols, region);
    var contacts: map<string, string> := map[];
    var i := 0;
    assert entries[..i] == [];
    while i < |file.rows|
      invariant 0 <= i <= |file.rows|
      invariant contacts == Directory(entries[..i])
    {
      var entry := ReadRow(lib, file.rows[i], cols, region);
      DirectoryStep(entries, i);
      if entry.Some? {
        contacts := contacts[entry.value.number := entry.value.name];
      }
      i := i + 1;
    }
    assert entries[..i] == entries;
    return Success(contacts);
  }

  /**
   * The body of load_contacts_csv's loop for one row: skip it when a column
   * is missing, the trimmed phone is empty or does not parse.
   */
  method ReadRow(lib: Library, row: Row, cols: Columns, region: string) returns (entry: Option<Entry>)
    ensures entry == RowEntry(lib, row, cols, region)
  {
    if cols.phone !in row || cols.name !in row {
      return None;
    }
    var rawPhone := Strip(row[cols.phone]);
    var name := Strip(row[cols.name]);
    if rawPhone == "" {
      return None;
    }
    var normalized := NormalizeNumber(lib, rawPhone, region);
    if normalized.Failure? {
      return None;
    }
    return Some(Entry(normalized.value, name));
  }

  /** One more entry updates the directory built so far. */
  lemma DirectoryStep(entries: seq<Option<Entry>>, i: nat)
    requires i < |entries|
    ensures entries[i].None? ==> Directory(entries[..i + 1]) == Directory(entries[..i])
    ensures entries[i].Some? ==>
      Directory(entries[..i + 1]) == Directory(entries[..i])[entries[i].value.number := entries[i].value.name]
  {
    assert entries[..i + 1][..i] == entries[..i];
  }

  /** The last entry for a number is the one the directory keeps. */
  lemma {:induction false} LastEntryWins(entries: seq<Option<Entry>>, i: nat)
    requires i < |entries| && entries[i].Some?
    requires forall j :: i < j < |entries| ==> entries[j].None? || entries[j].value.number != entries[i].value.number
    ensures entries[i].value.number in Directory(entries)
    ensures Directory(entries)[entries[i].value.number] == entries[i].value.name
    decreases |entries|
  {
    var n := |entries|;
    if i < n - 1 {
      var prefix := entries[..n - 1];
      assert prefix[i] == entries[i];
      forall j | i < j < |prefix|
        ensures prefix[j].None? || prefix[j].value.number != prefix[i].value.number
      {
        assert prefix[j] == entries[j];
      }
      LastEntryWins(prefix, i);
    }
  }

  /** Every key of the directory comes from some entry, whose name it keeps. */
  lemma {:induction false} EveryKeyFromAnEntry(entries: seq<Option<Entry>>, k: string)
    requires k in Directory(entries)
    ensures exists i :: 0 <= i < |entries| && entries[i] == Some(Entry(k, Directory(entries)[k]))
    decreases |entries|
  {
    var n := |entries|;
    var prefix := entries[..n - 1];
    var last := entries[n - 1];
    if last.Some? && last.value.number == k {
      assert entries[n - 1] == Some(Entry(k, Directory(entries)[k]));
    } else {
      EveryKeyFromAnEntry(prefix, k);
      var i :| 0 <= i < |prefix| && prefix[i] == Some(Entry(k, Directory(prefix)[k]));
      assert entries[i] == prefix[i];
    }
  }

  /** Removing an empty entry leaves the directory unchanged. */
  lemma {:induction false} EmptyEntryIsInvisible(entries: seq<Option<Entry>>, i: nat)
    requires i < |entries| && entries[i].None?
    ensures Directory(entries[..i] + entries[i + 1..]) == Directory(entries)
    decreases |entries|
  {
    var n := |entries|;
    var without := entries[..i] + entries[i + 1..];
    if i == n - 1 {
      assert without == entries[..n - 1];
    } else {
      var prefix := entries[..n - 1];
      assert prefix[i] == entries[i];
      EmptyEntryIsInvisible(prefix, i);
      assert without[..|without| - 1] == prefix[..i] + prefix[i + 1..];
      assert without[|without| - 1] == entries[n - 1];
    }
  }

  /** Two neighbouring entries for different numbers can be swapped without changing the directory. */
  lemma {:induction false} AdjacentEntriesCommute(entries: seq<Option<Entry>>, i: nat)
    requires i + 1 < |entries|
    requires entries[i].None? || entries[i + 1].None? || entries[i].value.number != entries[i + 1].value.number
    ensures Directory(entries[..i] + [entries[i + 1], entries[i]] + entries[i + 2..]) == Directory(entries)
    decreases |entries|
  {
    var n := |entries|;
    var swapped := entries[..i] + [entries[i + 1], entries[i]] + entries[i + 2..];
    if i + 2 == n {
      var base := Directory(entries[..i]);
      assert swapped[..n - 1][..n - 2] == entries[..i];
      assert entries[..n - 1][..n - 2] == entries[..i];
      assert swapped[..n - 1] == entries[..i] + [entries[i + 1]];
    } else {
      var prefix := entries[..n - 1];
      assert prefix[i] == entries[i] && prefix[i + 1] == entries[i + 1];
      AdjacentEntriesCommute(prefix, i);
      assert swapped[..n - 1] == prefix[..i] + [prefix[i + 1], prefix[i]] + prefix[i + 2..];
      assert swapped[n - 1] == entries[n - 1];
    }
  }

  /** Swapping two neighbouring rows swaps what a per-row rule gives for them. */
  lemma MapRowsSwap(rule: Row -> Option<Entry>, rows: seq<Row>, i: nat)
    requires i + 1 < |rows|
    ensures var es := MapRows(rule, rows);
      MapRows(rule, rows[..i] + [rows[i + 1], rows[i]] + rows[i + 2..]) == es[..i] + [es[i + 1], es[i]] + es[i + 2..]
  {
    var swapped := rows[..i] + [rows[i + 1], rows[i]] + rows[i + 2..];
    var es := MapRows(rule, rows);
    var want := es[..i] + [es[i + 1], es[i]] + es[i + 2..];
    assert |MapRows(rule, swapped)| == |want|;
    forall k | 0 <= k < |want|
      ensures MapRows(rule, swapped)[k] == want[k]
    {
      if k < i {
        assert swapped[k] == rows[k] && want[k] == es[k];
      } else if k == i {
        assert swapped[k] == rows[i + 1] && want[k] == es[i + 1];
      } else if k == i + 1 {
        assert swapped[k] == rows[i] && want[k] == es[i];
      } else {
        assert swapped[k] == rows[k] && want[k] == es[k];
      }
    }
  }

  /**
   * Apart from duplicates, row order does not matter: swapping two
   * neighbouring rows that do not contribute the same number leaves the
   * directory unchanged.
   */
  lemma DistinctRowsCommute(lib: Library, rows: seq<Row>, cols: Columns, region: string, i: nat)
    requires i + 1 < |rows|
    requires var a, b := RowEntry(lib, rows[i], cols, region), RowEntry(lib, rows[i + 1], cols, region);
      a.None? || b.None? || a.value.number != b.value.number
    ensures ContactsFrom(lib, rows[..i] + [rows[i + 1], rows[i]] + rows[i + 2..], cols, region)
         == ContactsFrom(lib, rows, cols, region)
  {
    MapRowsSwap(RowRule(lib, cols, region), rows, i);
    AdjacentEntriesCommute(EntriesOf(lib, rows, cols, region), i);
  }

  /** Last row wins: the entry of the last row for a number is the one kept. */
  lemma LastRowWins(lib: Library, rows: seq<Row>, cols: Columns, region: string, i: nat)
    requires i < |rows| && RowEntry(lib, rows[i], cols, region).Some?
    requires forall j :: i < j < |rows| ==>
      !RowHasNumber(lib, rows[j], cols, region, RowEntry(lib, rows[i], cols, region).value.number)
    ensures var e := RowEntry(lib, rows[i], cols, region).value;
      e.number in ContactsFrom(lib, rows, cols, region) && ContactsFrom(lib, rows, cols, region)[e.number] == e.name
  {
    LastEntryWins(EntriesOf(lib, rows, cols, region), i);
  }

  /** Every key of the directory is the normalised phone of some row, with that row's trimmed name. */
  lemma EveryKeyFromARow(lib: Library, rows: seq<Row>, cols: Columns, region: string, k: string)
    requires k in ContactsFrom(lib, rows, cols, region)
    ensures exists i :: (0 <= i < |rows| &&
      RowEntry(lib, rows[i], cols, region) == Some(Entry(k, ContactsFrom(lib, rows, cols, region)[k])))
  {
    EveryKeyFromAnEntry(EntriesOf(lib, rows, cols, region), k);
  }

  /** A skipped row can be deleted from the file without changing the directory. */
  lemma SkippedRowIsInvisible(lib: Library, rows: seq<Row>, cols: Columns, region: string, i: nat)
    requires i < |rows| && RowEntry(lib, rows[i], cols, region).None?
    ensures ContactsFrom(lib, rows[..i] + rows[i + 1..], cols, region) == ContactsFrom(lib, rows, cols, region)
  {
    var es := EntriesOf(lib, rows, cols, region);
    assert EntriesOf(lib, rows[..i] + rows[i + 1..], cols, region) == es[..i] + es[i + 1..];
    EmptyEntryIsInvisible(es, i);
  }

  /**
   * find_name_local: None when the query does not parse, otherwise exactly
   * the directory's entry under the normalised query (no fuzzy or prefix match).
   */
  function FindNameLocal(lib: Library, number: string, contacts: map<string, string>, region: string): (r: Option<string>)
    ensures lib.parse(number, region).Failure? ==> r.None?
    ensures r.Some? <==>
      lib.parse(number, region).Success? && lib.formatE164(lib.parse(number, region).value) in contacts
    ensures r.Some? ==> r.value == contacts[lib.formatE164(lib.parse(number, region).value)]
  {
    match NormalizeNumber(lib, number, region)
    case Failure(_) => None
    case Success(normalized) => if normalized in contacts then Some(contacts[normalized]) else None
  }

  /**
   * Round trip: the trimmed phone of a loaded row, looked up with the same
   * region, finds the trimmed name of the last row for that number.
   */
  lemma LoadedRowIsFound(lib: Library, rows: seq<Row>, cols: Columns, region: string, i: nat)
    requires i < |rows| && RowEntry(lib, rows[i], cols, region).Some?
    requires forall j :: i < j < |rows| ==>
      !RowHasNumber(lib, rows[j], cols, region, RowEntry(lib, rows[i], cols, region).value.number)
    ensures FindNameLocal(lib, Strip(rows[i][cols.phone]), ContactsFrom(lib, rows, cols, region), region)
         == Some(Strip(rows[i][cols.name]))
  {
    LastRowWins(lib, rows, cols, region, i);
  }

  /**
   * The repository's own test: a one-row CSV "Test Person,+1 415 555 2671"
   * loaded with region US finds "Test Person" again, whenever the library
   * parses that number.
   */
  lemma TestLocalLookup(lib: Library)
    requires lib.parse("+1 415 555 2671", "US").Success?
    ensures FindNameLocal(lib, "+1 415 555 2671",
              ContactsFrom(lib, [map["name" := "Test Person", "phone" := "+1 415 555 2671"]], DefaultColumns, "US"),
              "US")
         == Some("Test Person")
  {
    var row: Row := map["name" := "Test Person", "phone" := "+1 415 555 2671"];
    var phone, name := "+1 415 555 2671", "Test Person";
    assert !IsSpace(phone[0]) && !IsSpace(phone[|phone| - 1]);
    assert LStrip(phone) == phone && RStrip(phone) == phone;
    assert !IsSpace(name[0]) && !IsSpace(name[|name| - 1]);
    assert LStrip(name) == name && RStrip(name) == name;
    assert row["phone"] == phone && row["name"] == name;
    assert RowEntry(lib, row, DefaultColumns, "US").Some?;
    LoadedRowIsFound(lib, [row], DefaultColumns, "US", 0);
  }

  // ---------------------------------------------------------------------
  // ExternalLookup
  // ---------------------------------------------------------------------

  /** The environment variables the adapters and entry points read. */
  datatype Environment = Environment(
    numverifyApiKey: Option<string>,
    twilioAccountSid: Option<string>,
    twilioAuthToken: Option<string>,
    yelpApiKey: Option<string>,
    googleMapsApiKey: Option<string>,
    openCorporatesApiKey: Option<string>)

  /** ExternalLookup: the three credentials its constructor stores and nothing updates. */
  datatype ExternalLookup = ExternalLookup(
    numverifyKey: Option<string>,
    twilioSid: Option<string>,
    twilioToken: Option<string>)

  /**
   * What an adapter method hands back: the (success, value) tuple, or
   * Python's None when the method falls off its end without a return.
   */
  datatype LookupResult = Returned(ok: bool, value: Option<string>) | FellOffEnd

  /**
   * The outcome of one HTTP request: Failed stands for every exception the
   * adapter catches (transport error, timeout, HTTP error status, a body that
   * is not JSON or not of the expected shape); Decoded carries the JSON body.
   */
  datatype ApiReply<T> = Failed | Decoded(body: T)

  /** A JSON object member that may be absent, null or present. */
  datatype JsonField<T> = Missing | Null | Present(value: T)

  // NumVerify

  datatype NumverifyQuery = NumverifyQuery(accessKey: string, number: string)

  /** The members of a NumVerify validate reply the adapter reads. */
  datatype NumverifyBody = NumverifyBody(carrier: Option<string>, lineType: Option<string>, countryName: Option<string>)

  /** The request lookup_numverify sends: none without a key or when the number does not parse. */
  function NumverifyRequest(ext: ExternalLookup, lib: Library, number: string, region: string): (q: Option<NumverifyQuery>)
    ensures q.None? <==> !Truthy(ext.numverifyKey) || lib.parse(number, region).Failure?
    ensures q.Some? ==>
      q.value == NumverifyQuery(ext.numverifyKey.value, lib.formatE164(lib.parse(number, region).value))
  {
    if !Truthy(ext.numverifyKey) then None
    else
      match NormalizeNumber(lib, number, region)
      case Failure(_) => None
      case Success(normalized) => Some(NumverifyQuery(ext.numverifyKey.value, normalized))
  }

  /** The hint fields present in the reply, labelled, in the fixed order carrier, line type, country. */
  function HintFields(body: NumverifyBody): seq<string> {
    (if Truthy(body.carrier) then ["carrier=" + body.carrier.value] else [])
    + (if Truthy(body.lineType) then ["line_type=" + body.lineType.value] else [])
    + (if Truthy(body.countryName) then ["country=" + body.countryName.value] else [])
  }

  /** The hint lookup_numverify reports: the present fields joined by "; ", or None when there are none. */
  function HintOf(body: NumverifyBody): (hint: Option<string>)
    ensures hint.None? <==> !Truthy(body.carrier) && !Truthy(body.lineType) && !Truthy(body.countryName)
    ensures hint.Some? ==> hint.value != ""
  {
    var fields := HintFields(body);
    if fields == [] then None else Some(Join(fields, "; "))
  }

  /** The hint-building steps of lookup_numverify: append each present field, then join. */
  method BuildHint(body: NumverifyBody) returns (hint: Option<string>)
    ensures hint == HintOf(body)
  {
    var hints: seq<string> := [];
    if Truthy(body.carrier) {
      hints := hints + ["carrier=" + body.carrier.value];
    }
    if Truthy(body.lineType) {
      hints := hints + ["line_type=" + body.lineType.value];
    }
    if Truthy(body.countryName) {
      hints := hints + ["country=" + body.countryName.value];
    }
    assert hints == HintFields(body);
    hint := if hints != [] then Some(Join(hints, "; ")) else None;
  }

  /** The option's text, when present, has no ';'. */
  predicate NoSemicolon(o: Option<string>) {
    o.Some? ==> ';' !in o.value
  }

  /**
   * The hint can be taken apart again: splitting it at "; " gives the
   * labelled fields in order, as long as no field value holds a ';'.
   */
  lemma HintRoundTrip(body: NumverifyBody)
    requires NoSemicolon(body.carrier) && NoSemicolon(body.lineType) && NoSemicolon(body.countryName)
    ensures HintOf(body).Some? ==> Split(HintOf(body).value, "; ") == HintFields(body)
  {
    var fields := HintFields(body);
    if fields != [] {
      forall i | 0 <= i < |fields| ensures ';' !in fields[i] {
        var labels := (if Truthy(body.carrier) then ["carrier="] else [])
          + (if Truthy(body.lineType) then ["line_type="] else [])
          + (if Truthy(body.countryName) then ["country="] else []);
        var values := (if Truthy(body.carrier) then [body.carrier.value] else [])
          + (if Truthy(body.lineType) then [body.lineType.value] else [])
          + (if Truthy(body.countryName) then [body.countryName.value] else []);
        assert |labels| == |values| == |fields|;
        assert forall k :: 0 <= k < |fields| ==> fields[k] == labels[k] + values[k];
        assert ';' !in labels[i] && ';' !in values[i];
      }
      SplitJoin(fields, "; ");
    }
  }

  /** Step of FullNumverifyHint: joining three parts unfolds to two separators. */
  lemma JoinThree(a: string, b: string, c: string, sep: string)
    ensures Join([a, b, c], sep) == a + sep + (b + sep + c)
  {
    assert [a, b, c][1..] == [b, c];
    assert [b, c][1..] == [c];
    assert Join([c], sep) == c;
    assert Join([b, c], sep) == b + sep + c;
  }

  /** A reply naming carrier, line type and country gives the three labelled fields in that order. */
  lemma FullNumverifyHint()
    ensures HintOf(NumverifyBody(Some("Verizon"), Some("mobile"), Some("United States")))
         == Some("carrier=Verizon; line_type=mobile; country=United States")
  {
    FullNumverifyFields();
    FullNumverifyJoin();
  }

  /** Step of FullNumverifyHint: the three labelled fields of the Verizon reply. */
  lemma FullNumverifyFields()
    ensures HintFields(NumverifyBody(Some("Verizon"), Some("mobile"), Some("United States")))
         == ["carrier=Verizon", "line_type=mobile", "country=United States"]
  {
    assert "carrier=" + "Verizon" == "carrier=Verizon";
    assert "line_type=" + "mobile" == "line_type=mobile";
    assert "country=" + "United States" == "country=United States";
  }

  /** Step of FullNumverifyHint: the three fields joined by "; ". */
  lemma FullNumverifyJoin()
    ensures Join(["carrier=Verizon", "line_type=mobile", "country=United States"], "; ")
         == "carrier=Verizon; line_type=mobile; country=United States"
  {
    JoinThree("carrier=Verizon", "line_type=mobile", "country=United States", "; ");
    FullNumverifyTail();
    FullNumverifyText();
  }

  /** Step of FullNumverifyHint: the first field joined to the other two by "; ". */
  lemma FullNumverifyText()
    ensures "carrier=Verizon" + "; " + "line_type=mobile; country=United States"
         == "carrier=Verizon; line_type=mobile; country=United States"
  {
  }

  /** Step of FullNumverifyHint: the last two fields joined by "; ". */
  lemma FullNumverifyTail()
    ensures "line_type=mobile" + "; " + "country=United States" == "line_type=mobile; country=United States"
  {
  }

  /**
   * lookup_numverify: (False, None) when no request is sent or the request
   * fails; otherwise (True, hint).
   */
  function LookupNumverify(ext: ExternalLookup, lib: Library, number: string, region: string,
                           api: NumverifyQuery -> ApiReply<NumverifyBody>): (r: LookupResult)
    ensures r.Returned?
    ensures !Truthy(ext.numverifyKey) ==> r == Returned(false, None)
    ensures r.ok <==> (var q := NumverifyRequest(ext, lib, number, region); q.Some? && api(q.value).Decoded?)
    ensures !r.ok ==> r.value.None?
    ensures r.ok ==> r.value == HintOf(api(NumverifyRequest(ext, lib, number, region).value).body)
  {
    match NumverifyRequest(ext, lib, number, region)
    case None => Returned(false, None)
    case Some(q) =>
      match api(q)
      case Failed => Returned(false, None)
      case Decoded(body) => Returned(true, HintOf(body))
  }

  // Twilio

  /**
   * lookup_twilio: only its credential gate is reachable. Without a usable
   * SID and token (the constructor's, else the environment's) it returns
   * (False, None); with both it falls off its end and returns None.
   */
  function LookupTwilio(ext: ExternalLookup, env: Environment, number: string, region: string): (r: LookupResult)
    ensures r.FellOffEnd? <==>
      Truthy(OrElse(ext.twilioSid, env.twilioAccountSid)) && Truthy(OrElse(ext.twilioToken, env.twilioAuthToken))
    ensures r.Returned? ==> r == Returned(false, None)
  {
    var sid := OrElse(ext.twilioSid, env.twilioAccountSid);
    var token := OrElse(ext.twilioToken, env.twilioAuthToken);
    if !Truthy(sid) || !Truthy(token) then Returned(false, None) else FellOffEnd
  }

  // Yelp

  datatype YelpQuery = YelpQuery(authorization: string, phone: string)

  datatype Business = Business(name: Option<string>)

  /** A Yelp phone-search reply: its "businesses" member, absent and null alike read as None. */
  datatype YelpBody = YelpBody(businesses: Option<seq<Business>>)

  /** The request lookup_yelp sends: none without YELP_API_KEY or when the number does not parse. */
  function YelpRequest(env: Environment, lib: Library, number: string, region: string): (q: Option<YelpQuery>)
    ensures q.None? <==> !Truthy(env.yelpApiKey) || lib.parse(number, region).Failure?
    ensures q.Some? ==>
      q.value == YelpQuery("Bearer " + env.yelpApiKey.value, lib.formatE164(lib.parse(number, region).value))
  {
    if !Truthy(env.yelpApiKey) then None
    else
      match NormalizeNumber(lib, number, region)
      case Failure(_) => None
      case Success(normalized) => Some(YelpQuery("Bearer " + env.yelpApiKey.value, normalized))
  }

  /**
   * lookup_yelp: (False, None) when no request is sent or it fails;
   * (True, first business's name) for a non-empty list; (True, None) otherwise.
   */
  function LookupYelp(env: Environment, lib: Library, number: string, region: string,
                      api: YelpQuery -> ApiReply<YelpBody>): (r: LookupResult)
    ensures r.Returned?
    ensures !Truthy(env.yelpApiKey) || lib.parse(number, region).Failure? ==> r == Returned(false, None)
    ensures r.ok <==> (var q := YelpRequest(env, lib, number, region); q.Some? && api(q.value).Decoded?)
    ensures !r.ok ==> r.value.None?
    ensures r.ok ==>
      var found := api(YelpRequest(env, lib, number, region).value).body.businesses.GetOr([]);
      r.value == if found == [] then None else found[0].name
  {
    match YelpRequest(env, lib, number, region)
    case None => Returned(false, None)
    case Some(q) =>
      match api(q)
      case Failed => Returned(false, None)
      case Decoded(body) =>
        var businesses := body.businesses.GetOr([]);
        if businesses != [] then Returned(true, businesses[0].name) else Returned(true, None)
  }

  // Google Places

  /**
   * lookup_google: only its key gate is reachable: (False, None) without
   * GOOGLE_MAPS_API_KEY, None (falling off the end) with it.
   */
  function LookupGoogle(env: Environment, number: string, region: string): (r: LookupResult)
    ensures r.FellOffEnd? <==> Truthy(env.googleMapsApiKey)
    ensures r.Returned? ==> r == Returned(false, None)
  {
    if !Truthy(env.googleMapsApiKey) then Returned(false, None) else FellOffEnd
  }

  // OpenCorporates

  datatype OpenCorporatesQuery = OpenCorporatesQuery(q: string, apiToken: Option<string>)

  datatype Company = Company(name: Option<string>)

  /** One search hit; an absent, null or empty "company" object reads as None. */
  datatype CompanyHit = CompanyHit(company: Option<Company>)

  /** The "results" object; an absent or null "companies" list reads as None. */
  datatype CompanyResults = CompanyResults(companies: Option<seq<CompanyHit>>)

  datatype OpenCorporatesBody = OpenCorporatesBody(results: JsonField<CompanyResults>)

  /**
   * The request lookup_opencorporates sends: none only when the number does
   * not parse (there is no credential gate); api_token only with a key.
   */
  function OpenCorporatesRequest(env: Environment, lib: Library, number: string, region: string)
    : (q: Option<OpenCorporatesQuery>)
    ensures q.None? <==> lib.parse(number, region).Failure?
    ensures q.Some? ==> q.value.q == lib.formatE164(lib.parse(number, region).value)
    ensures q.Some? ==> (q.value.apiToken.Some? <==> Truthy(env.openCorporatesApiKey))
    ensures q.Some? && q.value.apiToken.Some? ==> q.value.apiToken == env.openCorporatesApiKey
  {
    match NormalizeNumber(lib, number, region)
    case Failure(_) => None
    case Success(normalized) =>
      Some(OpenCorporatesQuery(normalized, if Truthy(env.openCorporatesApiKey) then env.openCorporatesApiKey else None))
  }

  /** The top company's name in a decoded reply; a null "results" makes the lookup raise. */
  function TopCompany(body: OpenCorporatesBody): (r: LookupResult)
    ensures r.Returned?
    ensures !r.ok <==> body.results.Null?
    ensures !r.ok ==> r.value.None?
    ensures body.results.Missing? ==> r == Returned(true, None)
    ensures body.results.Present? && body.results.value.companies.GetOr([]) == [] ==> r == Returned(true, None)
    ensures body.results.Present? && body.results.value.companies.GetOr([]) != [] ==>
      r == Returned(true, body.results.value.companies.value[0].company.GetOr(Company(None)).name)
    ensures r.ok && r.value.Some? ==>
      && body.results.Present? && body.results.value.companies.Some?
      && var hits := body.results.value.companies.value;
         hits != [] && hits[0].company.Some? && hits[0].company.value.name == r.value
  {
    match body.results
    case Null => Returned(false, None)
    case Missing => Returned(true, None)
    case Present(results) =>
      var hits := results.companies.GetOr([]);
      if hits == [] then Returned(true, None)
      else
        var company := hits[0].company.GetOr(Company(None));
        Returned(true, company.name)
  }

  /**
   * lookup_opencorporates: (False, None) when the number does not parse or
   * the request fails; otherwise the top company's name, if any.
   */
  function LookupOpenCorporates(env: Environment, lib: Library, number: string, region: string,
                                api: OpenCorporatesQuery -> ApiReply<OpenCorporatesBody>): (r: LookupResult)
    ensures r.Returned?
    ensures lib.parse(number, region).Failure? ==> r == Returned(false, None)
    ensures r.ok <==>
      (var q := OpenCorporatesRequest(env, lib, number, region);
       q.Some? && api(q.value).Decoded? && !api(q.value).body.results.Null?)
    ensures !r.ok ==> r.value.None?
    ensures r.ok ==> r == TopCompany(api(OpenCorporatesRequest(env, lib, number, region).value).body)
  {
    match OpenCorporatesRequest(env, lib, number, region)
    case None => Returned(false, None)
    case Some(q) =>
      match api(q)
      case Failed => Returned(false, None)
      case Decoded(body) => TopCompany(body)
  }

  /** The sources an entry point consults, in the order it consults them. */
  datatype Source = LocalContacts | NumVerify | Twilio | Yelp | Google | OpenCorporates

  // ---------------------------------------------------------------------
  // get_number_info
  // ---------------------------------------------------------------------

  /** The keys of the metadata record of a number that parses. */
  const InfoKeys: set<string> :=
    {"normalized", "is_possible", "is_valid", "region", "description", "carrier", "line_type", "timezones"}

  /** Python's str() of a bool. */
  function BoolText(b: bool): (t: string)
    ensures t == "True" || t == "False"
    ensures t == "True" <==> b
  {
    if b then "True" else "False"
  }

  /** The readable name get_number_info gives each number type. */
  function TypeName(t: NumberType): string {
    match t
    case FixedLine => "FIXED_LINE"
    case Mobile => "MOBILE"
    case FixedLineOrMobile => "FIXED_LINE_OR_MOBILE"
    case TollFree => "TOLL_FREE"
    case PremiumRate => "PREMIUM_RATE"
    case SharedCost => "SHARED_COST"
    case Voip => "VOIP"
    case PersonalNumber => "PERSONAL_NUMBER"
    case Pager => "PAGER"
    case Uan => "UAN"
    case Voicemail => "VOICEMAIL"
    case Unknown => "UNKNOWN"
  }

  /**
   * get_number_info: an "error"-only record when the number does not parse;
   * otherwise exactly the keys of InfoKeys, each field degrading to None on
   * its own when the library call behind it raises.
   */
  method GetNumberInfo(lib: Library, number: string, region: string) returns (info: map<string, Option<string>>)
    ensures lib.parse(number, region).Failure? ==> info == map["error" := Some(lib.parse(number, region).error)]
    ensures lib.parse(number, region).Success? ==> info.Keys == InfoKeys
    ensures lib.parse(number, region).Success? ==>
      var pn := lib.parse(number, region).value;
      && info["normalized"] == Some(NormalizeNumber(lib, number, region).value)
      && info["is_possible"] == Some(BoolText(lib.isPossibleNumber(pn)))
      && info["is_valid"] == Some(BoolText(lib.isValidNumber(pn)))
      // region and description are looked up together and fail together
      && (info["description"].None? <==>
            lib.regionCodeForNumber(pn).Raises? || lib.descriptionForNumber(pn).Raises?)
      && (info["description"].None? ==> info["region"].None?)
      && (info["description"].Some? ==>
            info["region"] == lib.regionCodeForNumber(pn).value
            && info["description"] == Some(lib.descriptionForNumber(pn).value))
      // an empty carrier name is reported as None
      && info["carrier"] != Some("")
      && (info["carrier"].Some? <==> lib.carrierNameForNumber(pn).Returns? && lib.carrierNameForNumber(pn).value != "")
      && (info["carrier"].Some? ==> info["carrier"].value == lib.carrierNameForNumber(pn).value)
      && (info["line_type"].None? <==> lib.numberType(pn).Raises?)
      && (info["line_type"].Some? ==> info["line_type"].value == TypeName(lib.numberType(pn).value))
      // time zones: None when the call raises or lists none, else their ", "-join
      && (info["timezones"].None? <==>
            lib.timeZonesForNumber(pn).Raises? || lib.timeZonesForNumber(pn).value == [])
      && (info["timezones"].Some? ==> info["timezones"].value == Join(lib.timeZonesForNumber(pn).value, ", "))
  {
    match lib.parse(number, region)
    case Failure(reason) =>
      return map["error" := Some(reason)];
    case Success(pn) =>
      info := map[];
      info := info["normalized" := Some(lib.formatE164(pn))];
      info := info["is_possible" := Some(BoolText(lib.isPossibleNumber(pn)))];
      info := info["is_valid" := Some(BoolText(lib.isValidNumber(pn)))];

      var regionCall, descriptionCall := lib.regionCodeForNumber(pn), lib.descriptionForNumber(pn);
      if regionCall.Returns? && descriptionCall.Returns? {
        info := info["region" := regionCall.value];
        info := info["description" := Some(descriptionCall.value)];
      } else {
        info := info["region" := None];
        info := info["description" := None];
      }

      var carrierCall := lib.carrierNameForNumber(pn);
      if carrierCall.Returns? && carrierCall.value != "" {
        info := info["carrier" := Some(carrierCall.value)];
      } else {
        info := info["carrier" := None];
      }

      var typeCall := lib.numberType(pn);
      if typeCall.Returns? {
        info := info["line_type" := Some(TypeName(typeCall.value))];
      } else {
        info := info["line_type" := None];
      }

      var zonesCall := lib.timeZonesForNumber(pn);
      if zonesCall.Returns? && zonesCall.value != [] {
        info := info["timezones" := Some(Join(zonesCall.value, ", "))];
      } else {
        info := info["timezones" := None];
      }
  }

  /** The time-zone field lists the zones again when split at ", " (zone names hold no ','). */
  lemma TimezonesRoundTrip(zones: seq<string>)
    requires zones != []
    requires forall i :: 0 <= i < |zones| ==> ',' !in zones[i]
    ensures Split(Join(zones, ", "), ", ") == zones
  {
    SplitJoin(zones, ", ");
  }
}
