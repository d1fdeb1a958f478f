/** The verification request: the caller's own VAT ID, the VAT ID being
    checked, and optional company data for a qualified query, serialised to
    the ordered key/value body the service expects. */
module ConfirmationQueries {
  import opened Wrappers
  import opened Json

  datatype ConfirmationQuery = ConfirmationQuery(
    ownVatId: string,
    foreignVatId: string,
    companyName: Option<string>,
    city: Option<string>,
    street: Option<string>,
    postalCode: Option<string>)

  const OwnVatIdKey := "anfragendeUstid"
  const ForeignVatIdKey := "angefragteUstid"
  const CompanyNameKey := "firmenname"
  const CityKey := "ort"
  const StreetKey := "strasse"
  const PostalCodeKey := "plz"

  /** The position of a wire key in the body's fixed key order, and 6 for any
      other key. */
  function Rank(key: string): nat {
    if key == OwnVatIdKey then 0
    else if key == ForeignVatIdKey then 1
    else if key == CompanyNameKey then 2
    else if key == CityKey then 3
    else if key == StreetKey then 4
    else if key == PostalCodeKey then 5
    else 6
  }

  /** A body's keys are wire keys, each at most once, in the fixed order
      `anfragendeUstid`, `angefragteUstid`, `firmenname`, `ort`, `strasse`, `plz`. */
  predicate InKeyOrder(wire: seq<(string, string)>) {
    && (forall i :: 0 <= i < |wire| ==> Rank(wire[i].0) < 6)
    && (forall i, j :: 0 <= i < j < |wire| ==> Rank(wire[i].0) < Rank(wire[j].0))
  }

  /** The number of optional fields the query carries. */
  function OptionalCount(q: ConfirmationQuery): nat {
    (if q.companyName.Some? then 1 else 0) + (if q.city.Some? then 1 else 0)
    + (if q.street.Some? then 1 else 0) + (if q.postalCode.Some? then 1 else 0)
  }

  /** `ConfirmationQuery::simple`: no company data. */
  function Simple(ownVatId: string, foreignVatId: string): (q: ConfirmationQuery)
    ensures q.ownVatId == ownVatId && q.foreignVatId == foreignVatId
    ensures OptionalCount(q) == 0
  {
    ConfirmationQuery(ownVatId, foreignVatId, None, None, None, None)
  }

  /** `ConfirmationQuery::qualified`: company name and city are given, street and
      postal code may be; each argument lands in the field of the same name. */
  function Qualified(ownVatId: string, foreignVatId: string, companyName: string, city: string,
                     street: Option<string> := None, postalCode: Option<string> := None): (q: ConfirmationQuery)
    ensures q.ownVatId == ownVatId && q.foreignVatId == foreignVatId
    ensures q.companyName == Some(companyName) && q.city == Some(city)
    ensures q.street == street && q.postalCode == postalCode
  {
    ConfirmationQuery(ownVatId, foreignVatId, Some(companyName), Some(city), street, postalCode)
  }

  /** `$data[$key] = $value` when the field is not null. */
  function Emit(wire: seq<(string, string)>, key: string, value: Option<string>): seq<(string, string)> {
    if value.Some? then wire + [(key, value.value)] else wire
  }

  /** A lookup in an emitted body sees the emitted binding, or else the body before it. */
  lemma LookupEmit(wire: seq<(string, string)>, key: string, value: Option<string>, probe: string)
    ensures Lookup(Emit(wire, key, value), probe)
         == if value.Some? && key == probe then value else Lookup(wire, probe)
  {
    if value.Some? {
      var e := Emit(wire, key, value);
      assert e[..|e| - 1] == wire;
    }
  }

  /** Emitting a key ranked after every key already emitted keeps the order. */
  lemma EmitKeepsOrder(wire: seq<(string, string)>, key: string, value: Option<string>)
    requires InKeyOrder(wire) && Rank(key) < 6
    requires forall i :: 0 <= i < |wire| ==> Rank(wire[i].0) < Rank(key)
    ensures InKeyOrder(Emit(wire, key, value))
    ensures forall i :: 0 <= i < |Emit(wire, key, value)| ==> Rank(Emit(wire, key, value)[i].0) <= Rank(key)
  {
  }

  /** `toArray`: the two VAT IDs, then each optional field that is not null. */
  function ToArray(q: ConfirmationQuery): (wire: seq<(string, string)>)
    ensures |wire| == 2 + OptionalCount(q)
    ensures wire[0] == (OwnVatIdKey, q.ownVatId) && wire[1] == (ForeignVatIdKey, q.foreignVatId)
  {
    var w0 := [(OwnVatIdKey, q.ownVatId), (ForeignVatIdKey, q.foreignVatId)];
    Emit(Emit(Emit(Emit(w0, CompanyNameKey, q.companyName), CityKey, q.city), StreetKey, q.street),
         PostalCodeKey, q.postalCode)
  }

  /** What a lookup of `probe` in the body of `q` finds, stage by stage. */
  lemma LookupToArray(q: ConfirmationQuery, probe: string)
    ensures Lookup(ToArray(q), probe)
         == if probe == PostalCodeKey && q.postalCode.Some? then q.postalCode
            else if probe == StreetKey && q.street.Some? then q.street
            else if probe == CityKey && q.city.Some? then q.city
            else if probe == CompanyNameKey && q.companyName.Some? then q.companyName
            else Lookup([(OwnVatIdKey, q.ownVatId), (ForeignVatIdKey, q.foreignVatId)], probe)
  {
    var w0 := [(OwnVatIdKey, q.ownVatId), (ForeignVatIdKey, q.foreignVatId)];
    var w1 := Emit(w0, CompanyNameKey, q.companyName);
    var w2 := Emit(w1, CityKey, q.city);
    var w3 := Emit(w2, StreetKey, q.street);
    LookupEmit(w3, PostalCodeKey, q.postalCode, probe);
    LookupEmit(w2, StreetKey, q.street, probe);
    LookupEmit(w1, CityKey, q.city, probe);
    LookupEmit(w0, CompanyNameKey, q.companyName, probe);
  }

  /** Each optional key is in the body exactly when its field is not null, and
      then carries that field's value: no null placeholder is ever sent. */
  lemma ToArrayOptionalKeys(q: ConfirmationQuery)
    ensures Lookup(ToArray(q), CompanyNameKey) == q.companyName
    ensures Lookup(ToArray(q), CityKey) == q.city
    ensures Lookup(ToArray(q), StreetKey) == q.street
    ensures Lookup(ToArray(q), PostalCodeKey) == q.postalCode
  {
    var w0 := [(OwnVatIdKey, q.ownVatId), (ForeignVatIdKey, q.foreignVatId)];
    LookupAbsent(w0, CompanyNameKey);
    LookupAbsent(w0, CityKey);
    LookupAbsent(w0, StreetKey);
    LookupAbsent(w0, PostalCodeKey);
    LookupToArray(q, CompanyNameKey);
    LookupToArray(q, CityKey);
    LookupToArray(q, StreetKey);
    LookupToArray(q, PostalCodeKey);
  }

  /** The body's keys are wire keys, each at most once, in the fixed order. */
  lemma ToArrayKeyOrder(q: ConfirmationQuery)
    ensures InKeyOrder(ToArray(q))
  {
    var w0 := [(OwnVatIdKey, q.ownVatId), (ForeignVatIdKey, q.foreignVatId)];
    var w1 := Emit(w0, CompanyNameKey, q.companyName);
    var w2 := Emit(w1, CityKey, q.city);
    var w3 := Emit(w2, StreetKey, q.street);
    EmitKeepsOrder(w0, CompanyNameKey, q.companyName);
    EmitKeepsOrder(w1, CityKey, q.city);
    EmitKeepsOrder(w2, StreetKey, q.street);
    EmitKeepsOrder(w3, PostalCodeKey, q.postalCode);
  }

  /** How the service reads a request body back into a query: both VAT IDs are
      required, every other field is its key's value or null. */
  function FromWire(wire: seq<(string, string)>): Option<ConfirmationQuery> {
    match (Lookup(wire, OwnVatIdKey), Lookup(wire, ForeignVatIdKey))
    case (Some(own), Some(foreign)) =>
      Some(ConfirmationQuery(own, foreign, Lookup(wire, CompanyNameKey), Lookup(wire, CityKey),
                             Lookup(wire, StreetKey), Lookup(wire, PostalCodeKey)))
    case _ => None
  }

  /** Reading the body of `q` back gives `q`: serialisation loses nothing. */
  lemma ToArrayRoundTrip(q: ConfirmationQuery)
    ensures FromWire(ToArray(q)) == Some(q)
  {
    var w0 := [(OwnVatIdKey, q.ownVatId), (ForeignVatIdKey, q.foreignVatId)];
    LookupLastBinding(w0, OwnVatIdKey, 0);
    LookupLastBinding(w0, ForeignVatIdKey, 1);
    LookupToArray(q, OwnVatIdKey);
    LookupToArray(q, ForeignVatIdKey);
    ToArrayOptionalKeys(q);
  }

  /** In a body in key order, no key stands further along than its rank. */
  lemma {:induction false} RankBoundsPosition(wire: seq<(string, string)>, i: int)
    requires InKeyOrder(wire) && 0 <= i < |wire|
    ensures i <= Rank(wire[i].0)
    decreases i
  {
    if i > 0 {
      RankBoundsPosition(wire, i - 1);
    }
  }

  /** A body in key order that names both VAT IDs starts with them. */
  lemma MandatoryKeysFirst(wire: seq<(string, string)>, q: ConfirmationQuery)
    requires InKeyOrder(wire)
    requires FromWire(wire) == Some(q)
    ensures |wire| >= 2
    ensures wire[0] == (OwnVatIdKey, q.ownVatId) && wire[1] == (ForeignVatIdKey, q.foreignVatId)
  {
    LookupFound(wire, OwnVatIdKey);
    LookupFound(wire, ForeignVatIdKey);
    var own :| 0 <= own < |wire| && wire[own].0 == OwnVatIdKey;
    var foreign :| 0 <= foreign < |wire| && wire[foreign].0 == ForeignVatIdKey;
    RankBoundsPosition(wire, own);
    RankBoundsPosition(wire, foreign);
    LookupLastBinding(wire, OwnVatIdKey, own);
    LookupLastBinding(wire, ForeignVatIdKey, foreign);
  }

  /** The optional field serialised under `key`, and null for any other key. */
  function Field(q: ConfirmationQuery, key: string): Option<string> {
    if key == CompanyNameKey then q.companyName
    else if key == CityKey then q.city
    else if key == StreetKey then q.street
    else if key == PostalCodeKey then q.postalCode
    else None
  }

  /** The query `q` with the field serialised under `key` set to null. */
  function Without(q: ConfirmationQuery, key: string): ConfirmationQuery {
    if key == CompanyNameKey then q.(companyName := None)
    else if key == CityKey then q.(city := None)
    else if key == StreetKey then q.(street := None)
    else if key == PostalCodeKey then q.(postalCode := None)
    else q
  }

  /** When the field under `key` is the last non-null one, the body of `q` is the
      body without it followed by its binding. */
  lemma ToArrayLastField(q: ConfirmationQuery, key: string, value: string)
    requires 2 <= Rank(key) < 6
    requires Field(q, key) == Some(value)
    requires Rank(key) < Rank(CityKey) ==> q.city == None
    requires Rank(key) < Rank(StreetKey) ==> q.street == None
    requires Rank(key) < Rank(PostalCodeKey) ==> q.postalCode == None
    ensures ToArray(q) == ToArray(Without(q, key)) + [(key, value)]
  {
  }

  /** Dropping the last binding of a body in key order keeps it in key order. */
  lemma DropLastKeepsOrder(wire: seq<(string, string)>)
    requires InKeyOrder(wire) && |wire| > 0
    ensures InKeyOrder(wire[..|wire| - 1])
  {
    var prefix := wire[..|wire| - 1];
    assert forall i :: 0 <= i < |prefix| ==> prefix[i] == wire[i];
  }

  /** Dropping the last binding of a body in key order removes its key. */
  lemma DropLastRemovesKey(wire: seq<(string, string)>)
    requires InKeyOrder(wire) && |wire| > 0
    ensures Lookup(wire[..|wire| - 1], wire[|wire| - 1].0) == None
  {
    var prefix := wire[..|wire| - 1];
    assert forall i :: 0 <= i < |prefix| ==> prefix[i] == wire[i];
    LookupAbsent(prefix, wire[|wire| - 1].0);
  }

  /** Dropping the last binding leaves the lookup of every other key as it was. */
  lemma DropLastKeepsOthers(wire: seq<(string, string)>)
    requires |wire| > 0
    ensures forall k :: k != wire[|wire| - 1].0 ==> Lookup(wire[..|wire| - 1], k) == Lookup(wire, k)
  {
  }

  /** No key ranked after the last key of a body in key order is in it. */
  lemma LaterKeysAbsent(wire: seq<(string, string)>)
    requires InKeyOrder(wire) && |wire| > 0
    ensures forall k :: Rank(wire[|wire| - 1].0) < Rank(k) ==> Lookup(wire, k) == None
  {
    forall k | Rank(wire[|wire| - 1].0) < Rank(k)
      ensures Lookup(wire, k) == None
    {
      LookupAbsent(wire, k);
    }
  }

  /** Reading a body in key order without its last optional binding gives the
      query read from the whole body with that field set to null. */
  lemma FromWireDropLast(wire: seq<(string, string)>, q: ConfirmationQuery)
    requires InKeyOrder(wire) && |wire| > 0 && 2 <= Rank(wire[|wire| - 1].0)
    requires FromWire(wire) == Some(q)
    ensures FromWire(wire[..|wire| - 1]) == Some(Without(q, wire[|wire| - 1].0))
  {
    DropLastRemovesKey(wire);
    DropLastKeepsOthers(wire);
  }

  /** A non-empty body is its prefix followed by its last binding. */
  lemma SplitLast(wire: seq<(string, string)>)
    requires |wire| > 0
    ensures wire == wire[..|wire| - 1] + [wire[|wire| - 1]]
  {
  }

  /** A body of two bindings in key order that names both VAT IDs carries no
      company data. */
  lemma TwoBindingsNoCompanyData(wire: seq<(string, string)>, q: ConfirmationQuery)
    requires |wire| == 2 && Rank(wire[0].0) == 0 && Rank(wire[1].0) == 1
    requires FromWire(wire) == Some(q)
    ensures OptionalCount(q) == 0
  {
    LookupAbsent(wire, CompanyNameKey);
    LookupAbsent(wire, CityKey);
    LookupAbsent(wire, StreetKey);
    LookupAbsent(wire, PostalCodeKey);
  }

  /** A body in key order that names both VAT IDs is exactly the body `toArray`
      produces for the query read from it: the serialised form is canonical. */
  lemma {:induction false} ToArrayCanonical(wire: seq<(string, string)>, q: ConfirmationQuery)
    requires InKeyOrder(wire)
    requires FromWire(wire) == Some(q)
    ensures ToArray(q) == wire
    decreases |wire|
  {
    MandatoryKeysFirst(wire, q);
    if |wire| == 2 {
      TwoBindingsNoCompanyData(wire, q);
    } else {
      var n := |wire| - 1;
      var (key, value) := wire[n];
      var prefix := wire[..n];
      assert 2 <= Rank(key) by {
        assert Rank(wire[1].0) < Rank(wire[n].0);
      }
      DropLastKeepsOrder(wire);
      FromWireDropLast(wire, q);
      ToArrayCanonical(prefix, Without(q, key));
      LaterKeysAbsent(wire);
      assert Field(q, key) == Some(value);
      assert q.city == Lookup(wire, CityKey) && q.street == Lookup(wire, StreetKey);
      assert q.postalCode == Lookup(wire, PostalCodeKey);
      ToArrayLastField(q, key, value);
      SplitLast(wire);
    }
  }

  /** The body of `q` is the one body in key order that reads back as `q`. */
  lemma ToArrayCharacterised(q: ConfirmationQuery, wire: seq<(string, string)>)
    ensures ToArray(q) == wire <==> InKeyOrder(wire) && FromWire(wire) == Some(q)
  {
    ToArrayKeyOrder(q);
    ToArrayRoundTrip(q);
    if InKeyOrder(wire) && FromWire(wire) == Some(q) {
      ToArrayCanonical(wire, q);
    }
  }

  /** A simple query sends exactly the two VAT IDs. */
  lemma SimpleToArray(ownVatId: string, foreignVatId: string)
    ensures ToArray(Simple(ownVatId, foreignVatId)) == [(OwnVatIdKey, ownVatId), (ForeignVatIdKey, foreignVatId)]
  {
  }

  /** A qualified query always sends company name and city, and street and
      postal code exactly when they are given. */
  lemma QualifiedToArray(ownVatId: string, foreignVatId: string, companyName: string, city: string,
                         street: Option<string>, postalCode: Option<string>)
    ensures var wire := ToArray(Qualified(ownVatId, foreignVatId, companyName, city, street, postalCode));
      && Lookup(wire, CompanyNameKey) == Some(companyName)
      && Lookup(wire, CityKey) == Some(city)
      && Lookup(wire, StreetKey) == street
      && Lookup(wire, PostalCodeKey) == postalCode
      && |wire| == 4 + (if street.Some? then 1 else 0) + (if postalCode.Some? then 1 else 0)
  {
    ToArrayOptionalKeys(Qualified(ownVatId, foreignVatId, companyName, city, street, postalCode));
  }

  /** The two request bodies the library's tests expect; no syntax check is made,
      so empty strings are sent as they are. */
  lemma ToArrayExamples()
    ensures ToArray(Simple("DE123456789", "ATU12345678"))
         == [("anfragendeUstid", "DE123456789"), ("angefragteUstid", "ATU12345678")]
    ensures ToArray(Qualified("DE123456789", "ATU12345678", "Test GmbH", "Berlin", Some("Teststr. 1"), Some("10115")))
         == [("anfragendeUstid", "DE123456789"), ("angefragteUstid", "ATU12345678"),
             ("firmenname", "Test GmbH"), ("ort", "Berlin"), ("strasse", "Teststr. 1"), ("plz", "10115")]
    ensures ToArray(Qualified("", "", "", "")) == [("anfragendeUstid", ""), ("angefragteUstid", ""), ("firmenname", ""), ("ort", "")]
  {
  }
}
