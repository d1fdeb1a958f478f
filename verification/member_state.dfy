/** One EU member state as the service lists it, with whether its VAT IDs can
    be confirmed at the moment. */
module MemberStates {
  import opened Wrappers
  import opened Json
  import opened StrictTypes

  datatype MemberState = MemberState(countryCode: string, name: string, available: bool)

  /** The entries `fromArray` accepts: all three keys present with the
      parameter's type. */
  predicate Conforms(a: seq<(string, Json)>) {
    Get(a, "alpha2").Str? && Get(a, "name").Str? && Get(a, "verfuegbar").Bool?
  }

  /** `MemberState::fromArray`: `alpha2` becomes the country code and
      `verfuegbar` the availability; a missing key or one of another type (a
      `"1"` or `1` for the flag included) fails at the first such parameter. */
  function FromArray(a: seq<(string, Json)>): (r: Result<MemberState, DecodeError>)
    ensures r.Success? <==> Conforms(a)
    ensures r.Success? ==> && Get(a, "alpha2") == Str(r.value.countryCode)
                           && Get(a, "name") == Str(r.value.name)
                           && Get(a, "verfuegbar") == Bool(r.value.available)
    ensures !Get(a, "alpha2").Str? ==> r == Failure(TypeError("alpha2"))
    ensures Get(a, "alpha2").Str? && !Get(a, "name").Str? ==> r == Failure(TypeError("name"))
    ensures Get(a, "alpha2").Str? && Get(a, "name").Str? && !Get(a, "verfuegbar").Bool?
            ==> r == Failure(TypeError("verfuegbar"))
  {
    var countryCode :- RequiredString(a, "alpha2");
    var name :- RequiredString(a, "name");
    var available :- RequiredBool(a, "verfuegbar");
    Success(MemberState(countryCode, name, available))
  }

  /** An entry carrying `s` the way the service sends it. */
  function ToWire(s: MemberState): seq<(string, Json)> {
    [("alpha2", Str(s.countryCode)), ("name", Str(s.name)), ("verfuegbar", Bool(s.available))]
  }

  /** Every field of a member state survives the trip through its entry. */
  lemma FromArrayToWire(s: MemberState)
    ensures FromArray(ToWire(s)) == Success(s)
  {
    var a := ToWire(s);
    LookupLastBinding(a, "alpha2", 0);
    LookupLastBinding(a, "name", 1);
    LookupLastBinding(a, "verfuegbar", 2);
  }

  /** The entries of the library's test, and an availability flag sent as a
      number, which strict types refuse. */
  lemma FromArrayExamples()
    ensures FromArray([("alpha2", Str("AT")), ("name", Str("Österreich")), ("verfuegbar", Bool(true))])
         == Success(MemberState("AT", "Österreich", true))
    ensures FromArray([("alpha2", Str("FR")), ("name", Str("Frankreich")), ("verfuegbar", Bool(false))])
         == Success(MemberState("FR", "Frankreich", false))
    ensures FromArray([("alpha2", Str("FR")), ("name", Str("Frankreich")), ("verfuegbar", Int(1))])
         == Failure(TypeError("verfuegbar"))
    ensures FromArray([("name", Str("Frankreich")), ("verfuegbar", Bool(false))])
         == Failure(TypeError("alpha2"))
  {
    FromArrayToWire(MemberState("AT", "Österreich", true));
    FromArrayToWire(MemberState("FR", "Frankreich", false));
    var a := [("alpha2", Str("FR")), ("name", Str("Frankreich")), ("verfuegbar", Int(1))];
    LookupLastBinding(a, "alpha2", 0);
    LookupLastBinding(a, "name", 1);
    LookupLastBinding(a, "verfuegbar", 2);
    LookupAbsent([("name", Str("Frankreich")), ("verfuegbar", Bool(false))], "alpha2");
  }
}
