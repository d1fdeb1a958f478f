/** The verification answer: the service's status code, the query time, the
    validity dates, and one comparison outcome per company attribute. */
module ConfirmationResults {
  import opened Wrappers
  import opened Json
  import opened StrictTypes
  import opened StatusCodes
  import opened ComparisonResults

  datatype ConfirmationResult = ConfirmationResult(
    status: StatusCode,
    queryTimestamp: string,
    id: Option<string>,
    validFrom: Option<string>,
    validUntil: Option<string>,
    companyName: Option<ComparisonResult>,
    street: Option<ComparisonResult>,
    postalCode: Option<ComparisonResult>,
    city: Option<ComparisonResult>)

  /** `isValid()`: the status is one of the two codes that confirm the VAT ID. */
  function IsValid(r: ConfirmationResult): (b: bool)
    ensures b <==> StatusCodes.Value(r.status) in {"evatr-0000", "evatr-2008"}
  {
    r.status in [VALID, VALID_QUALIFIED_SPECIAL]
  }

  /** `isset($a[$key]) ? ComparisonResult::tryFrom($a[$key]) : null`. */
  function Comparison(a: seq<(string, Json)>, key: string): (r: Result<Option<ComparisonResult>, DecodeError>)
    ensures r.Success? <==> NullOrString(a, key)
    ensures r.Success? ==> ReadsComparison(a, key, r.value)
    ensures r.Failure? ==> r.error == TypeError(key)
  {
    if !IsSet(a, key) then Success(None)
    else
      var letter :- EnumArgument(Get(a, key), key);
      Success(ComparisonResults.TryFrom(letter))
  }

  /** `out` is what the lenient comparison read of `key` yields: the outcome
      whose letter is stored there, or null when no outcome's letter is. */
  predicate ReadsComparison(a: seq<(string, Json)>, key: string, out: Option<ComparisonResult>) {
    match out
    case Some(c) => Get(a, key) == Str(ComparisonResults.Value(c))
    case None => forall c :: Get(a, key) != Str(ComparisonResults.Value(c))
  }

  /** The payloads `fromArray` accepts. */
  predicate Conforms(a: seq<(string, Json)>) {
    && (exists c :: Get(a, "status") == Str(StatusCodes.Value(c)))
    && Get(a, "anfrageZeitpunkt").Str?
    && NullOrString(a, "id") && NullOrString(a, "gueltigAb") && NullOrString(a, "gueltigBis")
    && NullOrString(a, "ergFirmenname") && NullOrString(a, "ergStrasse")
    && NullOrString(a, "ergPlz") && NullOrString(a, "ergOrt")
  }

  /** The status is a string naming a known code, so `from` returns. */
  predicate StatusKnown(a: seq<(string, Json)>) {
    Get(a, "status").Str? && StatusCodes.TryFrom(Get(a, "status").s).Some?
  }

  /** Every `erg*` key is absent, null or a string, so each `tryFrom` returns. */
  predicate ComparisonsRead(a: seq<(string, Json)>) {
    && NullOrString(a, "ergFirmenname") && NullOrString(a, "ergStrasse")
    && NullOrString(a, "ergPlz") && NullOrString(a, "ergOrt")
  }

  /** `ConfirmationResult::fromArray`. The status must be a known code (`from` is
      strict); the comparison outcomes come from the unsuffixed `erg*` keys and
      are null for an unknown letter. Failures surface in PHP's order: the
      arguments evaluated first (`from`, then each `tryFrom`), then the
      constructor's own parameter checks. */
  function FromArray(a: seq<(string, Json)>): (r: Result<ConfirmationResult, DecodeError>)
    ensures r.Success? <==> Conforms(a)
    ensures r.Success? ==> Get(a, "status") == Str(StatusCodes.Value(r.value.status))
    ensures r.Success? ==> Get(a, "anfrageZeitpunkt") == Str(r.value.queryTimestamp)
    ensures r.Success? ==> && ReadsNullable(a, "id", r.value.id)
                           && ReadsNullable(a, "gueltigAb", r.value.validFrom)
                           && ReadsNullable(a, "gueltigBis", r.value.validUntil)
    ensures r.Success? ==> && ReadsComparison(a, "ergFirmenname", r.value.companyName)
                           && ReadsComparison(a, "ergStrasse", r.value.street)
                           && ReadsComparison(a, "ergPlz", r.value.postalCode)
                           && ReadsComparison(a, "ergOrt", r.value.city)
    ensures !Get(a, "status").Str? ==> r == Failure(TypeError("status"))
    ensures Get(a, "status").Str? && StatusCodes.TryFrom(Get(a, "status").s).None?
            ==> r == Failure(ValueError(Get(a, "status").s))
    ensures StatusKnown(a) && !NullOrString(a, "ergFirmenname") ==> r == Failure(TypeError("ergFirmenname"))
    ensures StatusKnown(a) && NullOrString(a, "ergFirmenname") && !NullOrString(a, "ergStrasse")
            ==> r == Failure(TypeError("ergStrasse"))
    ensures StatusKnown(a) && NullOrString(a, "ergFirmenname") && NullOrString(a, "ergStrasse")
            && !NullOrString(a, "ergPlz")
            ==> r == Failure(TypeError("ergPlz"))
    ensures StatusKnown(a) && NullOrString(a, "ergFirmenname") && NullOrString(a, "ergStrasse")
            && NullOrString(a, "ergPlz") && !NullOrString(a, "ergOrt")
            ==> r == Failure(TypeError("ergOrt"))
    ensures StatusKnown(a) && ComparisonsRead(a) && !Get(a, "anfrageZeitpunkt").Str?
            ==> r == Failure(TypeError("anfrageZeitpunkt"))
    ensures StatusKnown(a) && ComparisonsRead(a) && Get(a, "anfrageZeitpunkt").Str? && !NullOrString(a, "id")
            ==> r == Failure(TypeError("id"))
    ensures StatusKnown(a) && ComparisonsRead(a) && Get(a, "anfrageZeitpunkt").Str? && NullOrString(a, "id")
            && !NullOrString(a, "gueltigAb")
            ==> r == Failure(TypeError("gueltigAb"))
    ensures StatusKnown(a) && ComparisonsRead(a) && Get(a, "anfrageZeitpunkt").Str? && NullOrString(a, "id")
            && NullOrString(a, "gueltigAb") && !NullOrString(a, "gueltigBis")
            ==> r == Failure(TypeError("gueltigBis"))
  {
    var statusValue :- EnumArgument(Get(a, "status"), "status");
    var status :- StatusCodes.From(statusValue);
    var companyName :- Comparison(a, "ergFirmenname");
    var street :- Comparison(a, "ergStrasse");
    var postalCode :- Comparison(a, "ergPlz");
    var city :- Comparison(a, "ergOrt");
    var queryTimestamp :- RequiredString(a, "anfrageZeitpunkt");
    var id :- NullableString(a, "id");
    var validFrom :- NullableString(a, "gueltigAb");
    var validUntil :- NullableString(a, "gueltigBis");
    Success(ConfirmationResult(status, queryTimestamp, id, validFrom, validUntil,
                               companyName, street, postalCode, city))
  }

  /** The payload value for an optional comparison outcome: its letter, or null. */
  function LetterJson(v: Option<ComparisonResult>): Json {
    if v.Some? then Str(ComparisonResults.Value(v.value)) else Null
  }

  /** A payload carrying `r` the way the service sends it, with null for every
      null field. */
  function ToWire(r: ConfirmationResult): seq<(string, Json)> {
    [ ("status", Str(StatusCodes.Value(r.status))),
      ("anfrageZeitpunkt", Str(r.queryTimestamp)),
      ("id", NullableJson(r.id)),
      ("gueltigAb", NullableJson(r.validFrom)),
      ("gueltigBis", NullableJson(r.validUntil)),
      ("ergFirmenname", LetterJson(r.companyName)),
      ("ergStrasse", LetterJson(r.street)),
      ("ergPlz", LetterJson(r.postalCode)),
      ("ergOrt", LetterJson(r.city)) ]
  }

  /** Each key of the payload of `r` holds the value written under it. */
  lemma ToWireLookups(r: ConfirmationResult)
    ensures Get(ToWire(r), "status") == Str(StatusCodes.Value(r.status))
    ensures Get(ToWire(r), "anfrageZeitpunkt") == Str(r.queryTimestamp)
    ensures Get(ToWire(r), "id") == NullableJson(r.id)
    ensures Get(ToWire(r), "gueltigAb") == NullableJson(r.validFrom)
    ensures Get(ToWire(r), "gueltigBis") == NullableJson(r.validUntil)
    ensures Get(ToWire(r), "ergFirmenname") == LetterJson(r.companyName)
    ensures Get(ToWire(r), "ergStrasse") == LetterJson(r.street)
    ensures Get(ToWire(r), "ergPlz") == LetterJson(r.postalCode)
    ensures Get(ToWire(r), "ergOrt") == LetterJson(r.city)
  {
    var a := ToWire(r);
    LookupLastBinding(a, "status", 0);
    LookupLastBinding(a, "anfrageZeitpunkt", 1);
    LookupLastBinding(a, "id", 2);
    LookupLastBinding(a, "gueltigAb", 3);
    LookupLastBinding(a, "gueltigBis", 4);
    LookupLastBinding(a, "ergFirmenname", 5);
    LookupLastBinding(a, "ergStrasse", 6);
    LookupLastBinding(a, "ergPlz", 7);
    LookupLastBinding(a, "ergOrt", 8);
  }

  /** A comparison outcome written as its letter (or null) reads back as itself. */
  lemma ComparisonOfLetter(a: seq<(string, Json)>, key: string, v: Option<ComparisonResult>)
    requires Get(a, key) == LetterJson(v)
    ensures Comparison(a, key) == Success(v)
  {
    if v.Some? {
      ComparisonResults.TryFromValue(v.value);
    }
  }

  /** A payload whose keys hold the fields of `r` decodes to `r`. */
  lemma FromArrayReads(a: seq<(string, Json)>, r: ConfirmationResult)
    requires Get(a, "status") == Str(StatusCodes.Value(r.status))
    requires Get(a, "anfrageZeitpunkt") == Str(r.queryTimestamp)
    requires Get(a, "id") == NullableJson(r.id)
    requires Get(a, "gueltigAb") == NullableJson(r.validFrom)
    requires Get(a, "gueltigBis") == NullableJson(r.validUntil)
    requires Comparison(a, "ergFirmenname") == Success(r.companyName)
    requires Comparison(a, "ergStrasse") == Success(r.street)
    requires Comparison(a, "ergPlz") == Success(r.postalCode)
    requires Comparison(a, "ergOrt") == Success(r.city)
    ensures FromArray(a) == Success(r)
  {
    StatusCodes.TryFromValue(r.status);
    assert StatusCodes.From(StatusCodes.Value(r.status)) == Success(r.status);
    assert NullableString(a, "id") == Success(r.id);
    assert NullableString(a, "gueltigAb") == Success(r.validFrom);
    assert NullableString(a, "gueltigBis") == Success(r.validUntil);
  }

  /** Every field of a result survives the trip through its payload. */
  lemma FromArrayToWire(r: ConfirmationResult)
    ensures FromArray(ToWire(r)) == Success(r)
  {
    var a := ToWire(r);
    ToWireLookups(r);
    ComparisonOfLetter(a, "ergFirmenname", r.companyName);
    ComparisonOfLetter(a, "ergStrasse", r.street);
    ComparisonOfLetter(a, "ergPlz", r.postalCode);
    ComparisonOfLetter(a, "ergOrt", r.city);
    FromArrayReads(a, r);
  }

  /** A VAT ID valid only in the past (`evatr-2006`) or only from a future
      date (`evatr-2002`) is not valid now. */
  lemma IsValidCodes(r: ConfirmationResult)
    ensures r.status in {VALID_PAST, VALID_FUTURE} ==> !IsValid(r)
  {
  }

  /** The answer to a simple query that confirms the VAT ID. */
  lemma FromArrayValidExample()
    ensures var r := FromArray([("status", Str("evatr-0000")),
                                ("anfrageZeitpunkt", Str("2026-02-17T10:00:00Z")),
                                ("id", Str("abc-123"))]);
      && r == Success(ConfirmationResult(VALID, "2026-02-17T10:00:00Z", Some("abc-123"), None, None,
                                         None, None, None, None))
      && IsValid(r.value)
  {
    var a := [("status", Str("evatr-0000")),
              ("anfrageZeitpunkt", Str("2026-02-17T10:00:00Z")),
              ("id", Str("abc-123"))];
    LookupLastBinding(a, "status", 0);
    LookupLastBinding(a, "anfrageZeitpunkt", 1);
    LookupLastBinding(a, "id", 2);
    LookupAbsent(a, "gueltigAb");
    LookupAbsent(a, "gueltigBis");
    LookupAbsent(a, "ergFirmenname");
    LookupAbsent(a, "ergStrasse");
    LookupAbsent(a, "ergPlz");
    LookupAbsent(a, "ergOrt");
    FromArrayReads(a, ConfirmationResult(VALID, "2026-02-17T10:00:00Z", Some("abc-123"), None, None,
                                         None, None, None, None));
  }

  /** An answer whose `erg*` keys hold the company data rather than a letter:
      every comparison outcome is null, and the `*Result` keys are not read. */
  lemma FromArrayCompanyDataExample()
    ensures FromArray([("status", Str("evatr-0000")),
                       ("anfrageZeitpunkt", Str("2026-02-17T10:00:00Z")),
                       ("ergFirmenname", Str("Test GmbH")),
                       ("ergOrt", Str("Berlin")),
                       ("ergStrasse", Str("Teststr. 1")),
                       ("ergPlz", Str("10115")),
                       ("ergFirmennameResult", Str("A")),
                       ("ergOrtResult", Str("A")),
                       ("ergStrasseResult", Str("B")),
                       ("ergPlzResult", Str("C"))])
         == Success(ConfirmationResult(VALID, "2026-02-17T10:00:00Z", None, None, None,
                                       None, None, None, None))
  {
    var a := [("status", Str("evatr-0000")),
              ("anfrageZeitpunkt", Str("2026-02-17T10:00:00Z")),
              ("ergFirmenname", Str("Test GmbH")),
              ("ergOrt", Str("Berlin")),
              ("ergStrasse", Str("Teststr. 1")),
              ("ergPlz", Str("10115")),
              ("ergFirmennameResult", Str("A")),
              ("ergOrtResult", Str("A")),
              ("ergStrasseResult", Str("B")),
              ("ergPlzResult", Str("C"))];
    LookupLastBinding(a, "status", 0);
    LookupLastBinding(a, "anfrageZeitpunkt", 1);
    LookupLastBinding(a, "ergFirmenname", 2);
    LookupLastBinding(a, "ergOrt", 3);
    LookupLastBinding(a, "ergStrasse", 4);
    LookupLastBinding(a, "ergPlz", 5);
    LookupAbsent(a, "id");
    LookupAbsent(a, "gueltigAb");
    LookupAbsent(a, "gueltigBis");
    CompanyDataIsNoOutcome(a, "ergFirmenname", "Test GmbH");
    CompanyDataIsNoOutcome(a, "ergOrt", "Berlin");
    CompanyDataIsNoOutcome(a, "ergStrasse", "Teststr. 1");
    CompanyDataIsNoOutcome(a, "ergPlz", "10115");
    FromArrayReads(a, ConfirmationResult(VALID, "2026-02-17T10:00:00Z", None, None, None,
                                         None, None, None, None));
  }

  /** A string longer than one letter under an `erg*` key is no outcome. */
  lemma CompanyDataIsNoOutcome(a: seq<(string, Json)>, key: string, text: string)
    requires Get(a, key) == Str(text) && |text| > 1
    ensures Comparison(a, key) == Success(None)
  {
  }

  /** An answer for a VAT ID that was valid in the past: not valid, with its dates. */
  lemma FromArrayValidPastExample()
    ensures var r := FromArray([("status", Str("evatr-2006")),
                                ("anfrageZeitpunkt", Str("2026-02-17T10:00:00Z")),
                                ("gueltigAb", Str("2020-01-01")),
                                ("gueltigBis", Str("2024-12-31"))]);
      && r == Success(ConfirmationResult(VALID_PAST, "2026-02-17T10:00:00Z", None,
                                         Some("2020-01-01"), Some("2024-12-31"),
                                         None, None, None, None))
      && !IsValid(r.value)
  {
    var a := [("status", Str("evatr-2006")),
              ("anfrageZeitpunkt", Str("2026-02-17T10:00:00Z")),
              ("gueltigAb", Str("2020-01-01")),
              ("gueltigBis", Str("2024-12-31"))];
    LookupLastBinding(a, "status", 0);
    LookupLastBinding(a, "anfrageZeitpunkt", 1);
    LookupLastBinding(a, "gueltigAb", 2);
    LookupLastBinding(a, "gueltigBis", 3);
    LookupAbsent(a, "id");
    LookupAbsent(a, "ergFirmenname");
    LookupAbsent(a, "ergStrasse");
    LookupAbsent(a, "ergPlz");
    LookupAbsent(a, "ergOrt");
    FromArrayReads(a, ConfirmationResult(VALID_PAST, "2026-02-17T10:00:00Z", None,
                                         Some("2020-01-01"), Some("2024-12-31"),
                                         None, None, None, None));
  }

  /** A missing status, an unknown status and a missing query time each fail. */
  lemma FromArrayFailureExamples()
    ensures FromArray([("anfrageZeitpunkt", Str("2026-02-17T10:00:00Z"))]) == Failure(TypeError("status"))
    ensures FromArray([("status", Str("evatr-9999"))]) == Failure(ValueError("evatr-9999"))
    ensures FromArray([("status", Str("evatr-0000"))]) == Failure(TypeError("anfrageZeitpunkt"))
  {
    LookupAbsent([("anfrageZeitpunkt", Str("2026-02-17T10:00:00Z"))], "status");
    LookupLastBinding([("status", Str("evatr-9999"))], "status", 0);
    var a := [("status", Str("evatr-0000"))];
    LookupLastBinding(a, "status", 0);
    LookupAbsent(a, "ergFirmenname");
    LookupAbsent(a, "ergStrasse");
    LookupAbsent(a, "ergPlz");
    LookupAbsent(a, "ergOrt");
    LookupAbsent(a, "anfrageZeitpunkt");
  }
}
