/** The closed registry of internal status codes the service reports, each a
    case of a string-backed enum whose value is `evatr-` and four digits. */
module StatusCodes {
  import opened Wrappers
  import opened StrictTypes

  datatype StatusCode =
    | VALID | VALID_FUTURE | VALID_PAST | VALID_QUALIFIED_SPECIAL
    | FIELD_MISSING | OWN_VAT_ID_INVALID | FOREIGN_VAT_ID_INVALID | MAX_QUERIES_REACHED
    | FOREIGN_VAT_ID_SCHEMA_MISMATCH | INVALID_COUNTRY_CODE
    | UNAUTHORIZED | FAULTY_CALL
    | FOREIGN_VAT_ID_NOT_ALLOCATED | OWN_VAT_ID_NOT_VALID
    | PROCESSING_UNAVAILABLE_2004 | PROCESSING_UNAVAILABLE_2011 | PROCESSING_UNAVAILABLE_3011
    | SERVICE_UNAVAILABLE_0011 | SERVICE_UNAVAILABLE_1001 | SERVICE_UNAVAILABLE_1002
    | SERVICE_UNAVAILABLE_1003 | SERVICE_UNAVAILABLE_1004

  /** The shape every backing value has: `evatr-` followed by four decimal digits. */
  predicate IsWireCode(v: string) {
    && |v| == 10
    && v[..6] == "evatr-"
    && forall i :: 6 <= i < 10 ==> '0' <= v[i] <= '9'
  }

  /** The backing value of a case (`$case->value`). */
  function Value(c: StatusCode): (v: string)
    ensures IsWireCode(v)
  {
    match c
    case VALID => "evatr-0000"
    case VALID_FUTURE => "evatr-2002"
    case VALID_PAST => "evatr-2006"
    case VALID_QUALIFIED_SPECIAL => "evatr-2008"
    case FIELD_MISSING => "evatr-0002"
    case OWN_VAT_ID_INVALID => "evatr-0004"
    case FOREIGN_VAT_ID_INVALID => "evatr-0005"
    case MAX_QUERIES_REACHED => "evatr-0008"
    case FOREIGN_VAT_ID_SCHEMA_MISMATCH => "evatr-0012"
    case INVALID_COUNTRY_CODE => "evatr-2003"
    case UNAUTHORIZED => "evatr-0006"
    case FAULTY_CALL => "evatr-0007"
    case FOREIGN_VAT_ID_NOT_ALLOCATED => "evatr-2001"
    case OWN_VAT_ID_NOT_VALID => "evatr-2005"
    case PROCESSING_UNAVAILABLE_2004 => "evatr-2004"
    case PROCESSING_UNAVAILABLE_2011 => "evatr-2011"
    case PROCESSING_UNAVAILABLE_3011 => "evatr-3011"
    case SERVICE_UNAVAILABLE_0011 => "evatr-0011"
    case SERVICE_UNAVAILABLE_1001 => "evatr-1001"
    case SERVICE_UNAVAILABLE_1002 => "evatr-1002"
    case SERVICE_UNAVAILABLE_1003 => "evatr-1003"
    case SERVICE_UNAVAILABLE_1004 => "evatr-1004"
  }

  /** `StatusCode::cases()`, in declaration order. */
  const Cases: seq<StatusCode> := [
    VALID, VALID_FUTURE, VALID_PAST, VALID_QUALIFIED_SPECIAL,
    FIELD_MISSING, OWN_VAT_ID_INVALID, FOREIGN_VAT_ID_INVALID, MAX_QUERIES_REACHED,
    FOREIGN_VAT_ID_SCHEMA_MISMATCH, INVALID_COUNTRY_CODE,
    UNAUTHORIZED, FAULTY_CALL,
    FOREIGN_VAT_ID_NOT_ALLOCATED, OWN_VAT_ID_NOT_VALID,
    PROCESSING_UNAVAILABLE_2004, PROCESSING_UNAVAILABLE_2011, PROCESSING_UNAVAILABLE_3011,
    SERVICE_UNAVAILABLE_0011, SERVICE_UNAVAILABLE_1001, SERVICE_UNAVAILABLE_1002,
    SERVICE_UNAVAILABLE_1003, SERVICE_UNAVAILABLE_1004
  ]

  /** A case's place in declaration order. */
  function Position(c: StatusCode): nat {
    match c
    case VALID => 0
    case VALID_FUTURE => 1
    case VALID_PAST => 2
    case VALID_QUALIFIED_SPECIAL => 3
    case FIELD_MISSING => 4
    case OWN_VAT_ID_INVALID => 5
    case FOREIGN_VAT_ID_INVALID => 6
    case MAX_QUERIES_REACHED => 7
    case FOREIGN_VAT_ID_SCHEMA_MISMATCH => 8
    case INVALID_COUNTRY_CODE => 9
    case UNAUTHORIZED => 10
    case FAULTY_CALL => 11
    case FOREIGN_VAT_ID_NOT_ALLOCATED => 12
    case OWN_VAT_ID_NOT_VALID => 13
    case PROCESSING_UNAVAILABLE_2004 => 14
    case PROCESSING_UNAVAILABLE_2011 => 15
    case PROCESSING_UNAVAILABLE_3011 => 16
    case SERVICE_UNAVAILABLE_0011 => 17
    case SERVICE_UNAVAILABLE_1001 => 18
    case SERVICE_UNAVAILABLE_1002 => 19
    case SERVICE_UNAVAILABLE_1003 => 20
    case SERVICE_UNAVAILABLE_1004 => 21
  }

  /** Every case is listed in `Cases` at its place in declaration order. */
  lemma CaseListed(c: StatusCode)
    ensures |Cases| == 22
    ensures Position(c) < 22 && Cases[Position(c)] == c
  {
  }

  /** The entry at place `i` of `Cases` is the case declared at place `i`. */
  lemma ListedPosition(i: int)
    requires 0 <= i < |Cases|
    ensures Position(Cases[i]) == i
  {
  }

  /** The enum has exactly 22 cases, each listed once, with pairwise distinct values. */
  lemma CasesAreExactly22(c: StatusCode)
    ensures |Cases| == 22
    ensures c in Cases
    ensures forall i, j :: 0 <= i < j < |Cases| ==> Value(Cases[i]) != Value(Cases[j])
  {
    CaseListed(c);
    forall i, j | 0 <= i < j < |Cases|
      ensures Value(Cases[i]) != Value(Cases[j])
    {
      ListedPosition(i);
      ListedPosition(j);
      ValueInjective(Cases[i], Cases[j]);
    }
  }

  /** Distinct cases are backed by distinct values. */
  lemma ValueInjective(a: StatusCode, b: StatusCode)
    ensures Value(a) == Value(b) ==> a == b
  {
    TryFromValue(a);
    TryFromValue(b);
  }

  /** `StatusCode::tryFrom($s)`: the case backed by `s`, or null for any other string. */
  function TryFrom(s: string): (r: Option<StatusCode>)
    ensures r.Some? ==> Value(r.value) == s
    ensures r.None? <==> forall c :: Value(c) != s
  {
    match s
    case "evatr-0000" => Some(VALID)
    case "evatr-2002" => Some(VALID_FUTURE)
    case "evatr-2006" => Some(VALID_PAST)
    case "evatr-2008" => Some(VALID_QUALIFIED_SPECIAL)
    case "evatr-0002" => Some(FIELD_MISSING)
    case "evatr-0004" => Some(OWN_VAT_ID_INVALID)
    case "evatr-0005" => Some(FOREIGN_VAT_ID_INVALID)
    case "evatr-0008" => Some(MAX_QUERIES_REACHED)
    case "evatr-0012" => Some(FOREIGN_VAT_ID_SCHEMA_MISMATCH)
    case "evatr-2003" => Some(INVALID_COUNTRY_CODE)
    case "evatr-0006" => Some(UNAUTHORIZED)
    case "evatr-0007" => Some(FAULTY_CALL)
    case "evatr-2001" => Some(FOREIGN_VAT_ID_NOT_ALLOCATED)
    case "evatr-2005" => Some(OWN_VAT_ID_NOT_VALID)
    case "evatr-2004" => Some(PROCESSING_UNAVAILABLE_2004)
    case "evatr-2011" => Some(PROCESSING_UNAVAILABLE_2011)
    case "evatr-3011" => Some(PROCESSING_UNAVAILABLE_3011)
    case "evatr-0011" => Some(SERVICE_UNAVAILABLE_0011)
    case "evatr-1001" => Some(SERVICE_UNAVAILABLE_1001)
    case "evatr-1002" => Some(SERVICE_UNAVAILABLE_1002)
    case "evatr-1003" => Some(SERVICE_UNAVAILABLE_1003)
    case "evatr-1004" => Some(SERVICE_UNAVAILABLE_1004)
    case _ => None
  }

  /** `StatusCode::from($s)`: the case backed by `s`; any other string is a `ValueError`. */
  function From(s: string): (r: Result<StatusCode, DecodeError>)
    ensures r.Success? <==> exists c :: Value(c) == s
    ensures r.Success? ==> Value(r.value) == s
    ensures r.Failure? ==> r.error == ValueError(s)
  {
    match TryFrom(s)
    case Some(c) => Success(c)
    case None => Failure(ValueError(s))
  }

  /** Looking a case up by its own value gives that case back. */
  lemma TryFromValue(c: StatusCode)
    ensures TryFrom(Value(c)) == Some(c)
    ensures From(Value(c)) == Success(c)
  {
  }

  /** Two lookups the client's callers rely on. */
  lemma TryFromExamples()
    ensures TryFrom("evatr-0005") == Some(FOREIGN_VAT_ID_INVALID)
    ensures TryFrom("evatr-2006") == Some(VALID_PAST)
    ensures From("evatr-9999") == Failure(ValueError("evatr-9999"))
  {
  }
}
