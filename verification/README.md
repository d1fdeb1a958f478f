# evatr-php in Dafny

A model of the mapping layer of `xentral/evatr-php`, a PHP client for the
German Federal Central Tax Office's eVatR service. The service confirms
foreign EU VAT identification numbers ("USt-IdNr."). The model covers these
parts of the library:

- **The request.** A `ConfirmationQuery` is either simple (two VAT IDs) or
  qualified (with company name, city, and optionally street and postal code).
  It is serialised to the ordered key/value body the service expects
  (`ConfirmationQueries`).
- **The replies.**
  - `ConfirmationResult` holds the status code, query time, validity dates and
    four comparison outcomes (`ConfirmationResults`).
  - The status-message catalogue entries are modelled in `StatusMessages`.
  - The EU member states are modelled in `MemberStates`.
- **The two string-backed enums.** `StatusCode` has 22 `evatr-NNNN` values
  (`StatusCodes`). `ComparisonResult` has the letters `A`–`D`
  (`ComparisonResults`). Both come with PHP's `from`/`tryFrom` lookups.
- **The client** (`EvatrClient`):
  - The endpoints decode the reply of one HTTP exchange.
  - The list endpoints map a decoder over the reply's items.
  - `handleGuzzleException` turns a transport failure into an `EvatrError`
    whose kind stands for the exception subclass. The statuses 400, 403 and
    404 each have their own kind, every status from 500 up (beyond 599
    included) is a service error, and every other status is the base error.
    Read against the status classes of section 15 of RFC 9110, the whole 5xx
    class is a service error, while the 4xx class is split into three single
    statuses and the base error.
- **The exception record** (`EvatrExceptions`).

### Representation choices

**JSON payloads.** A payload is the value `json_decode($body, true)` returns
(`Json`). Objects are ordered member lists. A key lookup takes the last member
with that name, because repeated names overwrite. Integers are PHP's 64-bit
`int`. A missing key reads as `null`.

**Strict types.** Every file declares `strict_types=1`, and the model keeps the
consequences (`StrictTypes`):
- A value of the wrong type passed to a typed parameter is a `TypeError`, not a
  conversion. This covers a float `httpcode`, a `1` for a boolean, and a number
  passed to an enum's `from`/`tryFrom`.
- A missing key fails exactly the non-nullable parameters.
- Decoders surface the first failure in PHP's evaluation order. Arguments are
  evaluated first, so `from`/`tryFrom` run first. The constructor's parameter
  checks follow, in declaration order.

**Errors.** Exceptions become values:
- `Fault.Raised` holds an `EvatrError`.
- `Fault.Rejected` holds a PHP `TypeError`/`ValueError`.
- `Fault.Malformed` is the `JsonException` of a success body that is not JSON.

**Request reader.** `ConfirmationQueries.FromWire` reads a request body back
into a query. It has no counterpart in the library. It exists so that
serialisation can be stated as a round trip and a characterisation.

### Code and test disagree

The library's test expects a qualified reply to expose the company data
(`companyName === 'Test GmbH'`). It also expects the comparison outcomes under
`*Result` names, read from keys such as `ergFirmennameResult`
(tests/EvatrClientTest.php:61-68, 84-88).

`ConfirmationResult` declares no such properties. Its `companyName`, `street`,
`postalCode` and `city` are `?ComparisonResult`, and it reads them with
`tryFrom` from the unsuffixed keys `ergFirmenname`, `ergStrasse`, `ergPlz` and
`ergOrt`.

The model follows the code. The test's reply therefore decodes successfully,
with all four outcomes null (`ConfirmationResults.FromArrayCompanyDataExample`).

## Model

| member | source | states |
|---|---|---|
| StatusCodes.Value | src/Enum/StatusCode.php:10-41 | every case's backing value is `evatr-` followed by four decimal digits |
| StatusCodes.CasesAreExactly22 | src/Enum/StatusCode.php:7-42 | the enum has exactly 22 cases, every case is among them, and their values are pairwise distinct |
| StatusCodes.ValueInjective | src/Enum/StatusCode.php:10-41 | two cases with the same value are the same case |
| StatusCodes.TryFrom | src/Enum/StatusCode.php:7-42 | `tryFrom` returns a case whose value is the argument, and returns null exactly when no case has that value |
| StatusCodes.From | src/Enum/StatusCode.php:7-42 | `from` succeeds exactly when some case has the value, returns that case, and otherwise fails with a `ValueError` naming the value |
| StatusCodes.TryFromValue | src/Enum/StatusCode.php:7 | round trip: `tryFrom(c.value)` and `from(c.value)` both give `c` back, for every case |
| StatusCodes.TryFromExamples | src/Enum/StatusCode.php:12-18 | `evatr-0005` is FOREIGN_VAT_ID_INVALID, `evatr-2006` is VALID_PAST, and `from` refuses `evatr-9999` |
| ComparisonResults.Value | src/Enum/ComparisonResult.php:9-12 | each outcome's value is one letter from `A` to `D` |
| ComparisonResults.CasesAreExactly4 | src/Enum/ComparisonResult.php:7-13 | exactly four cases, every case among them, with pairwise distinct letters |
| ComparisonResults.TryFrom | src/Enum/ComparisonResult.php:7-13 | `tryFrom` returns null exactly for strings outside {`A`,`B`,`C`,`D`}, equivalently when no case has that value; otherwise it returns the case with that letter |
| ComparisonResults.TryFromValue | src/Enum/ComparisonResult.php:7 | round trip: `tryFrom(c.value) == c` for every outcome |
| ComparisonResults.TryFromExamples | src/Enum/ComparisonResult.php:9-12 | `A` is MATCH and `D` is NOT_PROVIDED; `Test GmbH`, `a` and the empty string are no outcome |
| ConfirmationQueries.Simple | src/Request/ConfirmationQuery.php:19-22 | a simple query keeps both VAT IDs and carries no optional field |
| ConfirmationQueries.Qualified | src/Request/ConfirmationQuery.php:24-33 | each argument lands in the field of the same name; company name and city are always set, street and postal code only as given |
| ConfirmationQueries.ToArray | src/Request/ConfirmationQuery.php:38-43 | the body starts with `anfragendeUstid` then `angefragteUstid`, carrying the two VAT IDs, and has one more binding per non-null optional field |
| ConfirmationQueries.ToArrayOptionalKeys | src/Request/ConfirmationQuery.php:45-59 | `firmenname`, `ort`, `strasse`, `plz` are present exactly when their field is non-null and then carry its value; no null placeholder is sent |
| ConfirmationQueries.ToArrayKeyOrder | src/Request/ConfirmationQuery.php:40-59 | the body's keys are wire keys, each at most once, in the order `anfragendeUstid`, `angefragteUstid`, `firmenname`, `ort`, `strasse`, `plz` |
| ConfirmationQueries.ToArrayRoundTrip | src/Request/ConfirmationQuery.php:38-62 | reading the body back yields the query: serialisation loses nothing |
| ConfirmationQueries.MandatoryKeysFirst | src/Request/ConfirmationQuery.php:40-43 | any body in key order that names both VAT IDs begins with those two bindings |
| ConfirmationQueries.ToArrayCanonical | src/Request/ConfirmationQuery.php:38-62 | every body in key order that reads back as a query is exactly the body of that query |
| ConfirmationQueries.ToArrayCharacterised | src/Request/ConfirmationQuery.php:38-62 | `toArray(q)` equals a body if and only if that body is in key order and reads back as `q` |
| ConfirmationQueries.SimpleToArray | src/Request/ConfirmationQuery.php:19-22 | a simple query sends exactly its two VAT IDs and nothing else |
| ConfirmationQueries.QualifiedToArray | src/Request/ConfirmationQuery.php:24-33 | a qualified query always sends `firmenname` and `ort`, and sends `strasse`/`plz` exactly when given |
| ConfirmationQueries.ToArrayExamples | src/Request/ConfirmationQuery.php:45-57 | the two bodies of the library's tests; empty strings are sent unchanged, since only `!== null` is checked |
| ConfirmationResults.Comparison | src/Response/ConfirmationResult.php:35-38 | an absent or null `erg*` key gives null; a string gives the outcome with that letter, or null for any other string; only a non-string value is a `TypeError` |
| ConfirmationResults.FromArray | src/Response/ConfirmationResult.php:27-40 | decoding succeeds exactly for payloads with a known status, a string `anfrageZeitpunkt` and null-or-string optional keys; each field equals its key's value; a failure names the first refused key in PHP's order: a non-string status is a `TypeError` and an unknown one a `ValueError`, then the four `erg*` keys (`TypeError` for a non-string), then `anfrageZeitpunkt`, `id`, `gueltigAb` and `gueltigBis` as the constructor checks them |
| ConfirmationResults.FromArrayToWire | src/Response/ConfirmationResult.php:27-40 | round trip: a result written as a payload decodes to the same result |
| ConfirmationResults.IsValid | src/Response/ConfirmationResult.php:42-48 | a result is valid exactly when its status code's wire value is `evatr-0000` or `evatr-2008` |
| ConfirmationResults.IsValidCodes | src/Response/ConfirmationResult.php:42-48 | VALID_PAST and VALID_FUTURE are not valid |
| ConfirmationResults.FromArrayValidExample | src/Response/ConfirmationResult.php:27-48 | the simple reply of the tests decodes to VALID with its timestamp and id, and is valid |
| ConfirmationResults.FromArrayCompanyDataExample | src/Response/ConfirmationResult.php:35-38 | company data under the `erg*` keys gives null outcomes, not a failure, and the `*Result` keys are ignored |
| ConfirmationResults.CompanyDataIsNoOutcome | src/Response/ConfirmationResult.php:35-38 | text longer than one letter under an `erg*` key reads as a null outcome |
| ConfirmationResults.FromArrayValidPastExample | src/Response/ConfirmationResult.php:30-34 | an `evatr-2006` reply decodes to VALID_PAST with its validity dates, and is not valid |
| ConfirmationResults.FromArrayFailureExamples | src/Response/ConfirmationResult.php:30-31 | a missing status, an unknown status and a missing query time each fail |
| StatusMessages.FromArray | src/Response/StatusMessage.php:21-30 | decoding succeeds exactly when `status`, `kategorie`, `meldung` are strings, `httpcode` is an integer and `feld` is absent, null or a string; each field equals its key; every failure is pinned in the constructor's order: the first ill-typed of `status`, `kategorie`, `httpcode`, `meldung`, then a `feld` that is set but not a string, names the `TypeError` |
| StatusMessages.FromArrayToWire | src/Response/StatusMessage.php:21-30 | round trip: a message written as an entry decodes to the same message |
| StatusMessages.FieldAbsentIsNull | src/Response/StatusMessage.php:28 | an entry without `feld` decodes like one with `feld: null` |
| StatusMessages.FromArrayExamples | src/Response/StatusMessage.php:23-29 | the two catalogue entries of the tests: no field for the first, `anfragendeUstid` for the second |
| StatusMessages.FromArrayFailureExamples | src/Response/StatusMessage.php:12-13 | a float or string `httpcode` and a missing `meldung` are type errors |
| MemberStates.FromArray | src/Response/MemberState.php:19-26 | decoding succeeds exactly when `alpha2` and `name` are strings and `verfuegbar` is a boolean; the fields equal those keys; the first ill-typed key names the `TypeError` |
| MemberStates.FromArrayToWire | src/Response/MemberState.php:19-26 | round trip: a member state written as an entry decodes to the same state |
| MemberStates.FromArrayExamples | src/Response/MemberState.php:22-24 | the AT and FR entries of the tests; a numeric flag and a missing `alpha2` are refused |
| EvatrExceptions.NewError | src/Exception/EvatrException.php:12-19 | message, status code, HTTP code (as the exception code) and cause are kept as passed |
| EvatrExceptions.NewErrorDefaults | src/Exception/EvatrException.php:14-16 | left out, the status code is null, the code 0 and the cause absent |
| StrictTypes.RequiredString | src/Response/StatusMessage.php:10-13 | a value passed to a `string` parameter is accepted exactly when it is a string, and then unchanged; anything else, null for an absent key included, is a `TypeError` naming the key |
| StrictTypes.NullableString | src/Response/StatusMessage.php:28 | `$a[$key] ?? null` passed to a `?string` parameter: null exactly when the key is not set, the string itself when it is one, and a `TypeError` for any other type |
| StrictTypes.RequiredInt | src/Response/StatusMessage.php:12 | an `int` parameter accepts exactly an integer; a float or a numeric string is a `TypeError`, not converted |
| StrictTypes.RequiredBool | src/Response/MemberState.php:12 | a `bool` parameter accepts exactly a boolean; `1` or `"1"` is a `TypeError` |
| StrictTypes.EnumArgument | src/Response/ConfirmationResult.php:30-38 | `from`/`tryFrom` of a string-backed enum accept exactly a string argument; a number or boolean is a `TypeError` |
| Json.LookupFound | src/Response/ConfirmationResult.php:30-31 | `$data[$key]` finds a value exactly when some member has that name, and the value found is bound to it |
| Json.LookupLastBinding | src/EvatrClient.php:86 | when the member at a position is the last one with its name, `$data[$key]` finds that member's value |
| Json.LookupAbsent | src/Response/ConfirmationResult.php:30-31 | with no member of that name, `$data[$key]` finds nothing |
| Json.LookupLast | src/EvatrClient.php:86 | a value found by `$data[$key]` is the value of the last member with that name |
| Json.GetLastBinding | src/Response/ConfirmationResult.php:32-34 | `$data[$key] ?? null` is null when no member has the name, and otherwise the value of the last member with it |
| Json.IsSetLastBinding | src/EvatrClient.php:107 | `isset($data[$key])` holds exactly when the last member with that name exists and is not null |
| Json.KeysFound | src/EvatrClient.php:86 | the decoded array's keys are exactly the names of the object's members |
| Json.KeysDistinct | src/EvatrClient.php:86 | no key appears twice in the decoded array |
| Json.ArrayValues | src/EvatrClient.php:52-55 | `array_map` visits a list's items as they are, and one value per distinct key of an object |
| Json.FirstBefore | src/EvatrClient.php:86 | for keys `i < j` of the decoded array, some member named after key `i` precedes every member named after key `j` |
| Json.KeysFirstOccurrenceOrder | src/EvatrClient.php:86 | the decoded array's keys are in the order their names first occur among the members |
| Json.ArrayValuesOfObject | src/EvatrClient.php:52-55 | `array_map` over a decoded object visits one value per key, and the value for a key is that of the last member with its name |
| Json.ArrayValuesOfDistinct | src/EvatrClient.php:52-55 | `array_map` over a reply object with distinct names visits its members in order |
| Json.ArrayValuesRepeatedKey | src/EvatrClient.php:86 | in `{"a": x, "b": y, "a": z}`, `a` keeps its first position and takes its last value, so the values visited are `z`, `y` |
| EvatrClient.Classify | src/EvatrClient.php:112-118 | 400 is a validation error, 403 forbidden, 404 not found, every status from 500 up a service error, each if and only if |
| EvatrClient.ClassifyStatusClasses | src/EvatrClient.php:112-118 | the whole 5xx class is a service error; the other 4xx statuses and all 1xx–3xx are the base error |
| EvatrClient.HasStatus | src/EvatrClient.php:107 | only a decoded object can carry a status (a JSON list has integer keys only), and an object does exactly when its `status` is set |
| EvatrClient.HandleGuzzleException | src/EvatrClient.php:95-122 | without a response: the base error with the transport message, no status code, code 0; with one: the class and code of the HTTP status, the status code whose value the body's `status` holds, the body's `meldung` or else the transport message; the cause is always kept; a non-string `status` or `meldung` is a `TypeError` instead |
| EvatrClient.HandleErrorBody | src/EvatrClient.php:101-118 | an error body of status and message raises exactly that status code and message, with the class and code of the HTTP status |
| EvatrClient.HandleBodyWithoutStatus | src/EvatrClient.php:105-110 | a body that is not an array, or has no status, leaves the status code null and keeps the transport message |
| EvatrClient.HandleGuzzleExceptionExamples | src/EvatrClient.php:97-121 | the test replies: 400 validation carrying FOREIGN_VAT_ID_INVALID and code 400, 403 forbidden, 404 not found, 500 and 503 service; no response gives the base error with code 0 |
| EvatrClient.HandleUnusualBodies | src/EvatrClient.php:107-108 | an unknown status gives a null status code; a numeric status is a `TypeError` |
| EvatrClient.Request | src/EvatrClient.php:77-89 | a request succeeds exactly with a JSON success body that is a PHP array; a transport failure is handled as above, a non-JSON body is a `JsonException`, and a JSON body that is not an array fails the `array` return type |
| EvatrClient.DecodeItem | src/EvatrClient.php:53 | the closure passes an object's members to `fromArray`, a list as an array without string keys, and refuses any other item by its `array` parameter type |
| EvatrClient.DecodeEach | src/EvatrClient.php:52-55 | mapping a decoder succeeds exactly when every item decodes, keeping length and order; otherwise it fails with the error of the first failing item; a non-array item is a `TypeError` |
| EvatrClient.VerifyVatId | src/EvatrClient.php:35-42 | the query's body is posted, and the reply decodes exactly when it is a conforming payload; a failed request's fault passes through unchanged, and a refused payload is rejected with `fromArray`'s own error; a library error arises only from a transport failure |
| EvatrClient.GetStatusMessages | src/EvatrClient.php:48-56 | succeeds exactly when the request succeeds and every reply item decodes, with one message per item in order; a failed request's fault passes through, a failed item's error is rejected; a library error arises only from a transport failure |
| EvatrClient.GetMemberStates | src/EvatrClient.php:62-70 | succeeds exactly when the request succeeds and every reply item decodes, with one member state per item in order; a failed request's fault passes through, a failed item's error is rejected; a library error arises only from a transport failure |
| EvatrClient.GetStatusMessagesToWire | src/EvatrClient.php:52-55 | a list of entries comes back as exactly the messages written |
| EvatrClient.GetMemberStatesToWire | src/EvatrClient.php:66-69 | a list of entries comes back as exactly the member states written |
| EvatrClient.EmptyReplies | src/EvatrClient.php:66-69 | an empty list or object decodes to an empty sequence |
| EvatrClient.ListFailureExamples | src/EvatrClient.php:66-69 | a non-array item, a JSON reply that is not an array, and a non-JSON reply each fail |
| EvatrClient.VerifyVatIdToWire | src/EvatrClient.php:35-42 | for every query, a reply carrying a result's payload decodes through the client to exactly that result |
| EvatrClient.VerifyVatIdExamples | src/EvatrClient.php:35-42 | the valid reply of the tests decodes through the client; the 400 reply raises an error carrying FOREIGN_VAT_ID_INVALID |

## Left out

- **Guzzle transport** (src/EvatrClient.php:25-30, 80). The `httpClient->request` call, the default client, the base URL, and the HTTP method and path are not modelled. Each endpoint instead takes the outcome of its exchange as an input (`Exchange`). `verifyVatId` takes it as a function of the posted body.
- **JSON text parsing** (src/EvatrClient.php:86, 105). Payloads are already decoded. Invalid JSON is `None` on the success path and `Null` for an error body. The nesting-depth limit of `json_decode` is not modelled.
- **JSON floats.** They are opaque. No code reads their value. They fail every typed parameter they reach (`int`, `string`, `bool` and the `array` of the mapped closure) and every enum lookup.
- **Exception subclasses.** Their files are not part of this model. They are taken to inherit `EvatrException`'s constructor and are represented by `ErrorKind`.
- **PHP notices.** The warning PHP emits for an undefined array key is not modelled. It does not change control flow.
- **Array keys of list results.** The model returns the decoded items as a sequence. For a reply that is a JSON object, `array_map` would keep the object's keys; the model keeps only the item order.
- **The `// 200 OK` … `// 503` grouping comments** in src/Enum/StatusCode.php:9-36. No code depends on them.
- **The test's `*Result` expectations** (tests/EvatrClientTest.php:84-88). The code does not implement them; see "Code and test disagree".
