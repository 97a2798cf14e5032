/**
 * The live country clock page: its state cells, the country search that
 * ends in a zone selection, an offset selection or an error message, the
 * choice of what the one-second tick shows, and the suggestion list's
 * reaction to the query text.
 *
 * The remote country service is not called: each operation that awaits it
 * takes its outcome as a parameter.
 */
module LiveTimerPage {
  import opened Wrappers
  import opened JsText
  import opened ZoneTable
  import opened OffsetClock

  const CountryNotFound := "Country not found."
  const TimezoneNotFound := "Timezone not found for this country."

  /** A record's `flags`: an empty string stands for a missing or empty link. */
  datatype Flags = Flags(svg: string, png: string)

  /**
   * One record of the service's JSON array: `name.common` (`None` when the
   * record has no `name`), the `timezones` array (empty when missing) and
   * the flag links.
   */
  datatype CountryRecord = CountryRecord(commonName: Option<string>, timezones: seq<string>, flags: Flags)

  /** Outcome of a request: a transport or HTTP failure, or the decoded array. */
  datatype Response = NetErr | Ok(records: seq<CountryRecord>)

  /** `flags?.svg || flags?.png || ""`: the first link that is not empty. */
  function FlagFor(f: Flags): (url: string)
    ensures url == "" <==> f.svg == "" && f.png == ""
    ensures f.svg != "" ==> url == f.svg
    ensures f.svg == "" ==> url == f.png
  {
    if f.svg != "" then f.svg else if f.png != "" then f.png else ""
  }

  /** The five cells a country search writes. */
  datatype Selection = Selection(error: string, country: string, timezone: string, offsetString: string, flagUrl: string)

  const Cleared := Selection("", "", "", "", "")

  /** A failed search: the message and an otherwise cleared selection. */
  function Failure(message: string): Selection {
    Cleared.(error := message)
  }

  /** The service's first record can drive an offset clock. */
  predicate HasUsableFirstRecord(response: Response) {
    response.Ok? && |response.records| > 0 && |response.records[0].timezones| > 0 &&
    response.records[0].commonName.Some?
  }

  /**
   * What `handleSearchCountry(countryName)` leaves in the five cells once
   * it has finished: a table hit, else the first record of the response,
   * else an error message. A record without `name` makes reading
   * `name.common` throw, which the same `catch` turns into "Country not
   * found.".
   */
  function SearchOutcome(countryName: string, response: Response): (r: Selection)
    ensures r.timezone == "" || r.offsetString == ""
    ensures r.error != "" ==> r == Failure(r.error)
    ensures r.error == "" || r.error == CountryNotFound || r.error == TimezoneNotFound
    ensures r.timezone != "" <==> countryName in CountryToTimezone.Keys
    ensures r.error == "" <==> countryName in CountryToTimezone.Keys || HasUsableFirstRecord(response)
  {
    match ZoneFor(countryName)
    case Some(zone) => Selection("", countryName, zone, "", "")
    case None =>
      match response
      case NetErr => Failure(CountryNotFound)
      case Ok(records) =>
        if |records| == 0 || |records[0].timezones| == 0 then Failure(TimezoneNotFound)
        else match records[0].commonName
          case None => Failure(CountryNotFound)
          case Some(name) => Selection("", name, "", records[0].timezones[0], FlagFor(records[0].flags))
  }

  /** The three ways a search can end. */
  datatype SearchResult = ZoneSelection | OffsetSelection | ErrorMessage

  function Classify(s: Selection): SearchResult {
    if s.error != "" then ErrorMessage
    else if s.timezone != "" then ZoneSelection
    else OffsetSelection
  }

  /**
   * A search ends in a zone selection exactly on a table hit, in an offset
   * selection exactly when the table misses and the first record is
   * usable, and in an error message otherwise; each names its data.
   */
  lemma SearchEndsInOneOfThree(countryName: string, response: Response)
    ensures var r := SearchOutcome(countryName, response);
      match Classify(r)
      case ZoneSelection =>
        ZoneFor(countryName).Some? &&
        r == Selection("", countryName, ZoneFor(countryName).value, "", "")
      case OffsetSelection =>
        ZoneFor(countryName).None? && HasUsableFirstRecord(response) &&
        r == Selection("", response.records[0].commonName.value, "",
                       response.records[0].timezones[0], FlagFor(response.records[0].flags))
      case ErrorMessage =>
        ZoneFor(countryName).None? && !HasUsableFirstRecord(response) &&
        r == Failure(if response.Ok? && (|response.records| == 0 || |response.records[0].timezones| == 0)
                     then TimezoneNotFound else CountryNotFound)
  {
  }

  /** A table hit never depends on the service, which is not asked. */
  lemma TableHitIgnoresResponse(countryName: string, r1: Response, r2: Response)
    requires ZoneFor(countryName).Some?
    ensures SearchOutcome(countryName, r1) == SearchOutcome(countryName, r2)
    ensures SearchOutcome(countryName, r1).timezone == ZoneFor(countryName).value
  {
  }

  /** "India" resolves locally; "Nepal" shows the offset the service returns. */
  lemma SearchExamples()
    ensures SearchOutcome("India", NetErr) == Selection("", "India", "Asia/Kolkata", "", "")
    ensures SearchOutcome("Nepal", Ok([CountryRecord(Some("Nepal"), ["UTC+05:45"], Flags("", "np.png"))]))
         == Selection("", "Nepal", "", "UTC+05:45", "np.png")
    ensures SearchOutcome("Atlantis", Ok([])) == Failure(TimezoneNotFound)
    ensures SearchOutcome("Atlantis", NetErr) == Failure(CountryNotFound)
  {
  }

  /**
   * What the synchronous half of `handleSearchCountry` leaves, up to the
   * `await`: the six cells cleared, then filled on a table hit.
   */
  function StartOutcome(countryName: string): (r: Selection)
    ensures r.error == "" && r.offsetString == "" && r.flagUrl == ""
    ensures r.timezone != "" <==> countryName in CountryToTimezone.Keys
    ensures r.timezone == "" ==> r == Cleared
    ensures r.timezone != "" ==> r.country == countryName && r.timezone == CountryToTimezone[countryName]
  {
    match ZoneFor(countryName)
    case Some(zone) => Selection("", countryName, zone, "", "")
    case None => Cleared
  }

  /**
   * The half after the `await`, applied to whatever the five cells hold
   * when the response arrives: a usable first record replaces country,
   * zone, offset, error and flag; any other outcome only sets the error.
   */
  function ApplyResponse(s: Selection, response: Response): (r: Selection)
    ensures (s.timezone == "" || s.offsetString == "") ==> (r.timezone == "" || r.offsetString == "")
    ensures HasUsableFirstRecord(response) ==>
      r == Selection("", response.records[0].commonName.value, "",
                     response.records[0].timezones[0], FlagFor(response.records[0].flags))
    ensures !HasUsableFirstRecord(response) ==>
      r.country == s.country && r.timezone == s.timezone && r.offsetString == s.offsetString &&
      r.flagUrl == s.flagUrl && (r.error == CountryNotFound || r.error == TimezoneNotFound)
    ensures !HasUsableFirstRecord(response) ==>
      r.error == (if response.Ok? && (|response.records| == 0 || |response.records[0].timezones| == 0)
                  then TimezoneNotFound else CountryNotFound)
  {
    match response
    case NetErr => s.(error := CountryNotFound)
    case Ok(records) =>
      if |records| == 0 || |records[0].timezones| == 0 then s.(error := TimezoneNotFound)
      else match records[0].commonName
        case None => s.(error := CountryNotFound)
        case Some(name) => Selection("", name, "", records[0].timezones[0], FlagFor(records[0].flags))
  }

  /**
   * With no other search in between, the two halves compose to the whole
   * handler: a table hit ends after the first half, any other name after
   * the response is applied to the cleared cells.
   */
  lemma SearchIsStartThenResponse(countryName: string, response: Response)
    ensures SearchOutcome(countryName, response)
         == if ZoneFor(countryName).Some? then StartOutcome(countryName)
            else ApplyResponse(StartOutcome(countryName), response)
  {
  }

  /**
   * Nothing ties a response to the search that sent it. A request for
   * "Nepal" that fails after the user picked "India" (a table hit) puts
   * the error beside India's zone; one that succeeds replaces India.
   */
  lemma LateResponseLandsOnNewerSearch()
    ensures ApplyResponse(StartOutcome("India"), NetErr)
         == Selection(CountryNotFound, "India", "Asia/Kolkata", "", "")
    ensures ApplyResponse(StartOutcome("India"), Ok([CountryRecord(Some("Nepal"), ["UTC+05:45"], Flags("np.svg", ""))]))
         == Selection("", "Nepal", "", "UTC+05:45", "np.svg")
  {
    ZoneForExamples();
  }

  /** What the repeating tick does for a pair of `timezone` and `offsetString` cells. */
  datatype TickMode = ZoneClock(zone: string) | OffsetTick(offset: string) | NoTick

  /**
   * The first effect: a non-empty zone wins, then a non-empty offset; with
   * neither no interval is started.
   */
  function ChooseTickMode(timezone: string, offsetString: string): (m: TickMode)
    ensures m.ZoneClock? <==> timezone != ""
    ensures m.OffsetTick? <==> timezone == "" && offsetString != ""
    ensures m.ZoneClock? ==> m.zone == timezone
    ensures m.OffsetTick? ==> m.offset == offsetString
  {
    if timezone != "" then ZoneClock(timezone)
    else if offsetString != "" then OffsetTick(offsetString)
    else NoTick
  }

  /**
   * After a search the clock runs in the zone of a table hit, runs on the
   * service's first offset, or stops on an error.
   */
  lemma TickModeAfterSearch(countryName: string, response: Response)
    ensures var r := SearchOutcome(countryName, response);
      var m := ChooseTickMode(r.timezone, r.offsetString);
      (ZoneFor(countryName).Some? ==> m == ZoneClock(ZoneFor(countryName).value)) &&
      ((ZoneFor(countryName).None? && HasUsableFirstRecord(response) && response.records[0].timezones[0] != "")
        ==> m == OffsetTick(response.records[0].timezones[0])) &&
      (r.error != "" ==> m == NoTick)
  {
  }

  /** `res.data.map(c => c.name.common)`; `None` when a record has no `name` (the map throws). */
  function SuggestionNames(records: seq<CountryRecord>): (names: Option<seq<string>>)
    ensures names.Some? <==> forall k :: 0 <= k < |records| ==> records[k].commonName.Some?
    ensures names.Some? ==> |names.value| == |records|
    ensures names.Some? ==> forall k :: 0 <= k < |records| ==> names.value[k] == records[k].commonName.value
  {
    if records == [] then Some([])
    else match (records[0].commonName, SuggestionNames(records[1..]))
      case (Some(n), Some(rest)) => Some([n] + rest)
      case (_, _) => None
  }

  /** The state cells of the page (`useState`), one field each. */
  class LiveTimer {
    var search: string
    var country: string
    var timezone: string
    /** `None` is the `null` a failed offset parse stores. */
    var time: Option<string>
    var error: string
    var suggestions: seq<string>
    var showSuggestions: bool
    var loadingSuggestions: bool
    var offsetString: string
    var flagUrl: string

    /** The five cells a search writes, as one value. */
    function Selected(): Selection
      reads this
    {
      Selection(error, country, timezone, offsetString, flagUrl)
    }

    /**
     * Never a zone and an offset at once; a zone only from the table; an
     * error only one of the two messages. These hold however the halves
     * of overlapping searches interleave.
     */
    ghost predicate Valid()
      reads this
    {
      (timezone == "" || offsetString == "") &&
      (timezone != "" ==> timezone in CountryToTimezone.Values) &&
      (error == "" || error == CountryNotFound || error == TimezoneNotFound)
    }

    constructor ()
      ensures Valid()
      ensures search == "" && Selected() == Cleared && time == Some("")
      ensures suggestions == [] && !showSuggestions && !loadingSuggestions
    {
      search := "";
      country := "";
      timezone := "";
      time := Some("");
      error := "";
      suggestions := [];
      showSuggestions := false;
      loadingSuggestions := false;
      offsetString := "";
      flagUrl := "";
    }

    /** The six setter calls that open every search. */
    method ClearSelection()
      modifies this
      ensures Valid()
      ensures Selected() == Cleared && time == Some("")
      ensures search == old(search) && suggestions == old(suggestions)
      ensures showSuggestions == old(showSuggestions) && loadingSuggestions == old(loadingSuggestions)
    {
      error := "";
      time := Some("");
      timezone := "";
      country := "";
      offsetString := "";
      flagUrl := "";
    }

    /**
     * `handleSearchCountry(countryName)` up to its `await`: clear the six
     * cells, then fill them on a table hit. `pending` says whether a
     * request is now in flight.
     */
    method BeginSearch(countryName: string) returns (pending: bool)
      modifies this
      ensures Valid()
      ensures pending <==> countryName !in CountryToTimezone.Keys
      ensures Selected() == StartOutcome(countryName)
      ensures time == Some("")
      ensures search == old(search) && suggestions == old(suggestions)
      ensures showSuggestions == old(showSuggestions) && loadingSuggestions == old(loadingSuggestions)
    {
      ClearSelection();
      var tz := ZoneFor(countryName);
      if tz.Some? {
        country := countryName;
        timezone := tz.value;
        offsetString := "";
        flagUrl := "";
        pending := false;
        return;
      }
      pending := true;
    }

    /**
     * The rest of `handleSearchCountry` once its request settles, applied
     * to the cells as they are then, whatever other search ran meanwhile.
     */
    method CompleteSearch(response: Response)
      requires Valid()
      modifies this
      ensures Valid()
      ensures Selected() == ApplyResponse(old(Selected()), response)
      ensures time == old(time) && search == old(search) && suggestions == old(suggestions)
      ensures showSuggestions == old(showSuggestions) && loadingSuggestions == old(loadingSuggestions)
    {
      match response
      case NetErr =>
        error := CountryNotFound;
      case Ok(records) =>
        if |records| > 0 && |records[0].timezones| > 0 {
          var countryData := records[0];
          match countryData.commonName
          case None =>
            error := CountryNotFound;
          case Some(name) =>
            country := name;
            timezone := "";
            offsetString := countryData.timezones[0];
            error := "";
            flagUrl := FlagFor(countryData.flags);
        } else {
          error := TimezoneNotFound;
        }
    }

    /**
     * A whole `handleSearchCountry(countryName)` with no other search in
     * between; `requested` says whether it sent a request.
     */
    method HandleSearchCountry(countryName: string, response: Response) returns (requested: bool)
      modifies this
      ensures Valid()
      ensures requested <==> countryName !in CountryToTimezone.Keys
      ensures Selected() == SearchOutcome(countryName, response)
      ensures time == Some("")
      ensures search == old(search) && suggestions == old(suggestions)
      ensures showSuggestions == old(showSuggestions) && loadingSuggestions == old(loadingSuggestions)
    {
      requested := BeginSearch(countryName);
      if requested {
        CompleteSearch(response);
      }
      SearchIsStartThenResponse(countryName, response);
    }

    /** Submitting the form: hide the list and start a search for the trimmed query. */
    method HandleSearch() returns (pending: bool)
      modifies this
      ensures Valid()
      ensures !showSuggestions && search == old(search)
      ensures pending <==> Trim(old(search)) !in CountryToTimezone.Keys
      ensures Selected() == StartOutcome(Trim(old(search)))
      ensures time == Some("")
      ensures suggestions == old(suggestions) && loadingSuggestions == old(loadingSuggestions)
    {
      showSuggestions := false;
      pending := BeginSearch(Trim(search));
    }

    /** Picking a suggestion: it becomes the query and a search for it, untrimmed, starts. */
    method HandleSuggestionClick(name: string) returns (pending: bool)
      modifies this
      ensures Valid()
      ensures search == name && !showSuggestions
      ensures pending <==> name !in CountryToTimezone.Keys
      ensures Selected() == StartOutcome(name)
      ensures time == Some("")
      ensures suggestions == old(suggestions) && loadingSuggestions == old(loadingSuggestions)
    {
      search := name;
      showSuggestions := false;
      pending := BeginSearch(name);
    }

    /**
     * One run of the tick effect at the instant `nowMillis`. `zoneText` is
     * the engine's rendering of that instant in the selected IANA zone,
     * which this model does not compute.
     */
    method Tick(nowMillis: int, zoneText: string) returns (mode: TickMode)
      modifies this`time
      ensures mode == ChooseTickMode(timezone, offsetString)
      ensures mode.ZoneClock? ==> time == Some(zoneText)
      ensures mode.OffsetTick? ==> time == TimeWithOffset(offsetString, nowMillis)
      ensures mode.NoTick? ==> time == old(time)
    {
      mode := ChooseTickMode(timezone, offsetString);
      match mode
      case ZoneClock(_) => time := Some(zoneText);
      case OffsetTick(offset) => time := TimeWithOffset(offset, nowMillis);
      case NoTick =>
    }

    /**
     * The query changes: a blank query clears and hides the list and
     * schedules nothing; any other query marks the list as loading and
     * schedules a fetch for the trimmed text.
     */
    method OnSearchChanged(query: string) returns (scheduled: Option<string>)
      modifies this
      ensures search == query && Selected() == old(Selected()) && time == old(time)
      ensures scheduled.None? <==> IsBlank(query)
      ensures scheduled.None? ==> suggestions == [] && !showSuggestions && loadingSuggestions == old(loadingSuggestions)
      ensures scheduled.Some? ==> scheduled.value == Trim(query) && loadingSuggestions
      ensures scheduled.Some? ==> suggestions == old(suggestions) && showSuggestions == old(showSuggestions)
    {
      search := query;
      TrimEmptyIffBlank(query);
      var trimmed := Trim(query);
      if trimmed == [] {
        suggestions := [];
        showSuggestions := false;
        scheduled := None;
        return;
      }
      loadingSuggestions := true;
      scheduled := Some(trimmed);
    }

    /**
     * A scheduled suggestion fetch completes. Whatever arrives is shown:
     * there is no check against the current query.
     */
    method CompleteSuggestionFetch(response: Response)
      modifies this
      ensures !loadingSuggestions
      ensures search == old(search) && Selected() == old(Selected()) && time == old(time)
      ensures (response.Ok? && SuggestionNames(response.records).Some?) ==>
        suggestions == SuggestionNames(response.records).value && showSuggestions
      ensures !(response.Ok? && SuggestionNames(response.records).Some?) ==>
        suggestions == [] && !showSuggestions
    {
      var names := if response.Ok? then SuggestionNames(response.records) else None;
      if names.Some? {
        suggestions := names.value;
        showSuggestions := true;
      } else {
        suggestions := [];
        showSuggestions := false;
      }
      loadingSuggestions := false;
    }
  }

  /** A client run: a table hit, then a service hit replacing it, then a failure. */
  method SearchScenario()
  {
    ZoneForExamples();
    SearchExamples();
    var nepal := Ok([CountryRecord(Some("Nepal"), ["UTC+05:45"], Flags("np.svg", "np.png"))]);
    assert SearchOutcome("Nepal", nepal) == Selection("", "Nepal", "", "UTC+05:45", "np.svg");

    var page := new LiveTimer();
    var asked := page.HandleSearchCountry("India", NetErr);
    assert !asked && page.timezone == "Asia/Kolkata";
    var mode := page.Tick(0, "05:30:00");
    assert mode == ZoneClock("Asia/Kolkata");

    asked := page.HandleSearchCountry("Nepal", nepal);
    assert asked && page.timezone == "" && page.offsetString == "UTC+05:45" && page.flagUrl == "np.svg";
    mode := page.Tick(0, "");
    assert mode == OffsetTick("UTC+05:45");

    asked := page.HandleSearchCountry("Atlantis", NetErr);
    assert page.error == CountryNotFound && page.timezone == "" && page.offsetString == "";
    mode := page.Tick(0, "");
    assert mode == NoTick && page.time == Some("");
  }

  /**
   * Overlapping searches: "Nepal" is picked, "India" is picked while
   * the request is in flight, then the Nepal request fails and its error
   * lands beside India's zone.
   */
  method OverlappingSearchScenario()
  {
    ZoneForExamples();
    var page := new LiveTimer();
    var pending := page.HandleSuggestionClick("Nepal");
    assert pending;
    pending := page.HandleSuggestionClick("India");
    assert !pending && page.country == "India" && page.timezone == "Asia/Kolkata";
    page.CompleteSearch(NetErr);
    assert page.error == CountryNotFound && page.country == "India" && page.timezone == "Asia/Kolkata";
  }
}
