/** One entry of the service's catalogue of status messages. */
module StatusMessages {
  import opened Wrappers
  import opened Json
  import opened StrictTypes

  datatype StatusMessage = StatusMessage(
    status: string,
    category: string,
    httpCode: PhpInt,
    message: string,
    field: Option<string>)

  /** The entries `fromArray` accepts: four required keys of the parameter's
      type, and `feld` absent, null or a string. */
  predicate Conforms(a: seq<(string, Json)>) {
    && Get(a, "status").Str? && Get(a, "kategorie").Str?
    && Get(a, "httpcode").Int? && Get(a, "meldung").Str?
    && NullOrString(a, "feld")
  }

  /** `StatusMessage::fromArray`: every key is read first, then the
      constructor checks its parameters in declaration order, so the first
      key of the wrong type (a missing one reads as null) names the failure.
      A float `httpcode` is refused, not truncated. */
  function FromArray(a: seq<(string, Json)>): (r: Result<StatusMessage, DecodeError>)
    ensures r.Success? <==> Conforms(a)
    ensures r.Success? ==> && Get(a, "status") == Str(r.value.status)
                           && Get(a, "kategorie") == Str(r.value.category)
                           && Get(a, "httpcode") == Int(r.value.httpCode)
                           && Get(a, "meldung") == Str(r.value.message)
                           && ReadsNullable(a, "feld", r.value.field)
    ensures !Get(a, "status").Str? ==> r == Failure(TypeError("status"))
    ensures Get(a, "status").Str? && !Get(a, "kategorie").Str? ==> r == Failure(TypeError("kategorie"))
    ensures Get(a, "status").Str? && Get(a, "kategorie").Str? && !Get(a, "httpcode").Int?
            ==> r == Failure(TypeError("httpcode"))
    ensures Get(a, "status").Str? && Get(a, "kategorie").Str? && Get(a, "httpcode").Int? && !Get(a, "meldung").Str?
            ==> r == Failure(TypeError("meldung"))
    ensures && Get(a, "status").Str? && Get(a, "kategorie").Str? && Get(a, "httpcode").Int? && Get(a, "meldung").Str?
            && !NullOrString(a, "feld")
            ==> r == Failure(TypeError("feld"))
  {
    var status :- RequiredString(a, "status");
    var category :- RequiredString(a, "kategorie");
    var httpCode :- RequiredInt(a, "httpcode");
    var message :- RequiredString(a, "meldung");
    var field :- NullableString(a, "feld");
    Success(StatusMessage(status, category, httpCode, message, field))
  }

  /** An entry carrying `m` the way the service sends it; `feld` is null when
      the message names no field. */
  function ToWire(m: StatusMessage): seq<(string, Json)> {
    [ ("status", Str(m.status)),
      ("kategorie", Str(m.category)),
      ("httpcode", Int(m.httpCode)),
      ("meldung", Str(m.message)),
      ("feld", NullableJson(m.field)) ]
  }

  /** Every field of a message survives the trip through its entry. */
  lemma FromArrayToWire(m: StatusMessage)
    ensures FromArray(ToWire(m)) == Success(m)
  {
    var a := ToWire(m);
    LookupLastBinding(a, "status", 0);
    LookupLastBinding(a, "kategorie", 1);
    LookupLastBinding(a, "httpcode", 2);
    LookupLastBinding(a, "meldung", 3);
    LookupLastBinding(a, "feld", 4);
  }

  /** Leaving `feld` out and sending it as null decode alike. */
  lemma FieldAbsentIsNull(m: StatusMessage)
    requires m.field.None?
    ensures FromArray(ToWire(m)[..4]) == Success(m)
  {
    var a := ToWire(m)[..4];
    LookupLastBinding(a, "status", 0);
    LookupLastBinding(a, "kategorie", 1);
    LookupLastBinding(a, "httpcode", 2);
    LookupLastBinding(a, "meldung", 3);
    LookupAbsent(a, "feld");
  }

  /** The two catalogue entries of the library's test: the first names no
      field, the second names `anfragendeUstid`. */
  lemma FromArrayExamples()
    ensures FromArray([("status", Str("evatr-0000")), ("kategorie", Str("success")),
                       ("httpcode", Int(200)), ("meldung", Str("Die angefragte USt-IdNr. ist gültig."))])
         == Success(StatusMessage("evatr-0000", "success", 200, "Die angefragte USt-IdNr. ist gültig.", None))
    ensures FromArray([("status", Str("evatr-0002")), ("kategorie", Str("error")), ("httpcode", Int(400)),
                       ("feld", Str("anfragendeUstid")), ("meldung", Str("Pflichtfeld fehlt."))])
         == Success(StatusMessage("evatr-0002", "error", 400, "Pflichtfeld fehlt.", Some("anfragendeUstid")))
  {
    var a := [("status", Str("evatr-0000")), ("kategorie", Str("success")),
              ("httpcode", Int(200)), ("meldung", Str("Die angefragte USt-IdNr. ist gültig."))];
    LookupLastBinding(a, "status", 0);
    LookupLastBinding(a, "kategorie", 1);
    LookupLastBinding(a, "httpcode", 2);
    LookupLastBinding(a, "meldung", 3);
    LookupAbsent(a, "feld");
    var b := [("status", Str("evatr-0002")), ("kategorie", Str("error")), ("httpcode", Int(400)),
              ("feld", Str("anfragendeUstid")), ("meldung", Str("Pflichtfeld fehlt."))];
    LookupLastBinding(b, "status", 0);
    LookupLastBinding(b, "kategorie", 1);
    LookupLastBinding(b, "httpcode", 2);
    LookupLastBinding(b, "feld", 3);
    LookupLastBinding(b, "meldung", 4);
  }

  /** An `httpcode` sent as a float or a string is a type error, as is an
      entry without `meldung`. */
  lemma FromArrayFailureExamples()
    ensures FromArray([("status", Str("evatr-0000")), ("kategorie", Str("success")),
                       ("httpcode", Float("200.0")), ("meldung", Str("ok"))])
         == Failure(TypeError("httpcode"))
    ensures FromArray([("status", Str("evatr-0000")), ("kategorie", Str("success")),
                       ("httpcode", Str("200")), ("meldung", Str("ok"))])
         == Failure(TypeError("httpcode"))
    ensures FromArray([("status", Str("evatr-0000")), ("kategorie", Str("success")),
                       ("httpcode", Int(200))])
         == Failure(TypeError("meldung"))
  {
    var a := [("status", Str("evatr-0000")), ("kategorie", Str("success")),
              ("httpcode", Float("200.0")), ("meldung", Str("ok"))];
    LookupLastBinding(a, "status", 0);
    LookupLastBinding(a, "kategorie", 1);
    LookupLastBinding(a, "httpcode", 2);
    var b := [("status", Str("evatr-0000")), ("kategorie", Str("success")),
              ("httpcode", Str("200")), ("meldung", Str("ok"))];
    LookupLastBinding(b, "status", 0);
    LookupLastBinding(b, "kategorie", 1);
    LookupLastBinding(b, "httpcode", 2);
    var c := [("status", Str("evatr-0000")), ("kategorie", Str("success")), ("httpcode", Int(200))];
    LookupLastBinding(c, "status", 0);
    LookupLastBinding(c, "kategorie", 1);
    LookupLastBinding(c, "httpcode", 2);
    LookupAbsent(c, "meldung");
  }
}
