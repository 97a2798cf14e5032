/**
 * The live clock's fixed table from a country's common name to an IANA
 * time-zone identifier, consulted before the remote country service.
 */
module ZoneTable {
  import opened Wrappers

  const CountryToTimezone: map<string, string> := map[
    "United States" := "America/New_York",
    "India" := "Asia/Kolkata",
    "United Kingdom" := "Europe/London",
    "Japan" := "Asia/Tokyo",
    "Australia" := "Australia/Sydney",
    "Germany" := "Europe/Berlin",
    "France" := "Europe/Paris",
    "Brazil" := "America/Sao_Paulo",
    "Canada" := "America/Toronto",
    "China" := "Asia/Shanghai"
  ]

  /**
   * Own-key lookup: the zone of `name` when `name` is, character for
   * character, one of the table's keys.
   */
  function ZoneFor(name: string): (r: Option<string>)
    ensures r.Some? <==> name in CountryToTimezone.Keys
    ensures r.Some? ==> r.value == CountryToTimezone[name]
    ensures r.Some? ==> r.value in CountryToTimezone.Values && r.value != ""
  {
    if name in CountryToTimezone then Some(CountryToTimezone[name]) else None
  }

  /** The keys are compared exactly: no case folding and no trimming. */
  lemma ZoneForExamples()
    ensures ZoneFor("India") == Some("Asia/Kolkata")
    ensures ZoneFor("Japan") == Some("Asia/Tokyo")
    ensures ZoneFor("india") == None
    ensures ZoneFor(" India") == None
    ensures ZoneFor("Nepal") == None
  {
  }

  // ---------------------------------------------------------------------
  // The lookup as written: `countryToTimezone[countryName]` on a plain
  // object literal also reaches the members it inherits from
  // `Object.prototype`.
  // ---------------------------------------------------------------------

  /** Property names every plain object inherits from `Object.prototype`. */
  const InheritedMemberNames: set<string> := {
    "constructor", "__proto__", "hasOwnProperty", "isPrototypeOf",
    "propertyIsEnumerable", "toString", "toLocaleString", "valueOf",
    "__defineGetter__", "__defineSetter__", "__lookupGetter__", "__lookupSetter__"
  }

  /** What a property read on the table object yields. */
  datatype PropertyValue =
    | Missing                          // undefined
    | ZoneId(id: string)               // one of the table's own strings
    | InheritedMember(member: string)  // a function or `Object.prototype` itself

  /** `countryToTimezone[name]` as JavaScript evaluates it. */
  function PropertyLookup(name: string): (v: PropertyValue)
    ensures v.Missing? <==> name !in CountryToTimezone && name !in InheritedMemberNames
    ensures v.ZoneId? <==> name in CountryToTimezone
  {
    if name in CountryToTimezone then ZoneId(CountryToTimezone[name])
    else if name in InheritedMemberNames then InheritedMember(name)
    else Missing
  }

  /** The `if (tz)` guard: everything but `undefined` and `""` is truthy. */
  predicate IsTruthy(v: PropertyValue) {
    match v
    case Missing => false
    case ZoneId(id) => id != ""
    case InheritedMember(_) => true
  }

  /**
   * As written, the table branch is taken for "constructor": the guard
   * passes, the name is not a country, and what would be stored as the
   * time zone is a function rather than a zone identifier.
   */
  lemma InheritedNameTakesTableBranch()
    ensures IsTruthy(PropertyLookup("constructor"))
    ensures !PropertyLookup("constructor").ZoneId?
    ensures ZoneFor("constructor").None?
  {
  }

  /**
   * The corrected lookup takes the table branch exactly when the name is
   * an own key, and then yields a zone identifier; it agrees with the
   * written lookup on every name that is not an inherited member.
   */
  lemma ZoneForIsOwnKeyLookup(name: string)
    ensures ZoneFor(name).Some? <==> IsTruthy(PropertyLookup(name)) && PropertyLookup(name).ZoneId?
    ensures name !in InheritedMemberNames ==> (ZoneFor(name).Some? <==> IsTruthy(PropertyLookup(name)))
    ensures ZoneFor(name).Some? ==> PropertyLookup(name) == ZoneId(ZoneFor(name).value)
  {
  }
}
