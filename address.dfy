/**
 * The Address entity (org.seng302.address.Address): a validating constructor that stores
 * empty optional columns as null, a positional parser for its JSON-ish text form and the
 * serialiser that produces that form, the full and "secure" payload projections, and the
 * in-place maintenance of the lists of users and businesses that live at the address.
 */
module Addresses {
  import opened Wrappers
  import opened JavaStrings
  import opened JavaLists

  /** The six address columns as stored; None is a null column. */
  datatype AddressFields = AddressFields(
    streetNumber: Option<string>,
    streetName: Option<string>,
    city: Option<string>,
    region: Option<string>,
    country: Option<string>,
    postcode: Option<string>)

  /** The six strings handed to the constructor, in parameter order. */
  datatype AddressStrings = AddressStrings(
    streetNumber: string,
    streetName: string,
    city: string,
    region: string,
    country: string,
    postcode: string)

  /**
   * The predicates of AddressValidation, one per field. Their definitions are not part of this
   * model, so every operation that validates takes them as a parameter.
   */
  datatype AddressRules = AddressRules(
    isValidStreetNumber: string -> bool,
    isValidStreetName: string -> bool,
    isValidCity: string -> bool,
    isValidRegion: string -> bool,
    isValidCountry: string -> bool,
    isValidPostcode: string -> bool)

  /** Why constructing or parsing an address failed. */
  datatype AddressError =
    | InvalidStreetNumber
    | InvalidStreetName
    | InvalidCity
    | InvalidRegion
    | InvalidCountry
    | InvalidPostcode
    | Malformed  // toAddress indexed past the end of an array (ArrayIndexOutOfBoundsException)

  /** AddressPayload: all six columns. */
  datatype AddressPayload = AddressPayload(
    streetNumber: Option<string>,
    streetName: Option<string>,
    city: Option<string>,
    region: Option<string>,
    country: Option<string>,
    postcode: Option<string>)

  /** AddressPayloadSecure: only the coarse location. */
  datatype AddressPayloadSecure = AddressPayloadSecure(
    city: Option<string>,
    region: Option<string>,
    country: Option<string>)

  // ---------------------------------------------------------------------------------------
  // Construction

  /** The constructor's checks, in the order it makes them. */
  const CheckOrder: seq<AddressError> :=
    [InvalidStreetNumber, InvalidStreetName, InvalidCity, InvalidRegion, InvalidCountry, InvalidPostcode]

  /** Whether each of the constructor's checks passes, in the order of CheckOrder. */
  function Passes(rules: AddressRules, a: AddressStrings): seq<bool>
  {
    [ rules.isValidStreetNumber(a.streetNumber), rules.isValidStreetName(a.streetName),
      rules.isValidCity(a.city), rules.isValidRegion(a.region),
      rules.isValidCountry(a.country), rules.isValidPostcode(a.postcode) ]
  }

  /** The constructor's guard chain: the error of the first check that fails, or None when all pass. */
  function FirstInvalid(rules: AddressRules, a: AddressStrings): (r: Option<AddressError>)
    ensures r.None? <==> forall k :: 0 <= k < 6 ==> Passes(rules, a)[k]
    ensures forall k :: 0 <= k < 6 ==>
              (r == Some(CheckOrder[k]) <==>
                 !Passes(rules, a)[k] && forall j :: 0 <= j < k ==> Passes(rules, a)[j])
  {
    var p := Passes(rules, a);
    assert p[0] == rules.isValidStreetNumber(a.streetNumber) && p[1] == rules.isValidStreetName(a.streetName);
    assert p[2] == rules.isValidCity(a.city) && p[3] == rules.isValidRegion(a.region);
    assert p[4] == rules.isValidCountry(a.country) && p[5] == rules.isValidPostcode(a.postcode);
    if !rules.isValidStreetNumber(a.streetNumber) then Some(InvalidStreetNumber)
    else if !rules.isValidStreetName(a.streetName) then Some(InvalidStreetName)
    else if !rules.isValidCity(a.city) then Some(InvalidCity)
    else if !rules.isValidRegion(a.region) then Some(InvalidRegion)
    else if !rules.isValidCountry(a.country) then Some(InvalidCountry)
    else if !rules.isValidPostcode(a.postcode) then Some(InvalidPostcode)
    else None
  }

  function NullIfEmpty(s: string): Option<string>
  {
    if s == "" then None else Some(s)
  }

  /** The columns the constructor stores: every optional field given as "" becomes null. */
  function Normalised(a: AddressStrings): (f: AddressFields)
    ensures f.country == Some(a.country)
    ensures f.streetNumber == None <==> a.streetNumber == ""
    ensures f.streetName == None <==> a.streetName == ""
    ensures f.city == None <==> a.city == ""
    ensures f.region == None <==> a.region == ""
    ensures f.postcode == None <==> a.postcode == ""
    ensures f.streetNumber.Some? ==> f.streetNumber.value == a.streetNumber
    ensures f.streetName.Some? ==> f.streetName.value == a.streetName
    ensures f.city.Some? ==> f.city.value == a.city
    ensures f.region.Some? ==> f.region.value == a.region
    ensures f.postcode.Some? ==> f.postcode.value == a.postcode
  {
    AddressFields(
      NullIfEmpty(a.streetNumber), NullIfEmpty(a.streetName), NullIfEmpty(a.city),
      NullIfEmpty(a.region), Some(a.country), NullIfEmpty(a.postcode))
  }

  // ---------------------------------------------------------------------------------------
  // Text forms

  /** How Java's string concatenation renders a possibly-null String. */
  function Show(o: Option<string>): string
  {
    if o.None? then "null" else o.value
  }

  /** The six columns rendered for concatenation, in declaration order. */
  function Shown(f: AddressFields): seq<string>
  {
    [Show(f.streetNumber), Show(f.streetName), Show(f.city), Show(f.region), Show(f.country), Show(f.postcode)]
  }

  /** toString: the six columns, nulls printed as "null", separated by ", ". */
  function ToString(f: AddressFields): (r: string)
    ensures r == Join(Shown(f), ", ")
  {
    JoinSix(Shown(f), ", ");
    Show(f.streetNumber) + ", " + Show(f.streetName) + ", " + Show(f.city) + ", "
      + Show(f.region) + ", " + Show(f.country) + ", " + Show(f.postcode)
  }

  /** One `"key":"value"` member of the JSON-ish form. */
  function Member(key: string, value: string): string
  {
    "\"" + key + "\"" + ":" + "\"" + value + "\""
  }

  /** The keys toStringJSON writes, in declaration order. */
  const JsonKeys: seq<string> := ["streetNumber", "streetName", "city", "region", "country", "postcode"]

  /** The `"key":"value"` members for the given keys and values. */
  function Members(keys: seq<string>, vals: seq<string>): (ms: seq<string>)
    requires |keys| == |vals|
    ensures |ms| == |keys|
  {
    seq(|keys|, i requires 0 <= i < |keys| => Member(keys[i], vals[i]))
  }

  /** toStringJSON: the six columns as `{"streetNumber":"…",…,"postcode":"…"}`, nulls printed as null. */
  function ToStringJson(f: AddressFields): (s: string)
    ensures |s| >= 2 && s[0] == '{' && s[|s| - 1] == '}'
    ensures Join(Members(JsonKeys, Shown(f)), ",") == s[1..|s| - 1]
  {
    "{" + Join(Members(JsonKeys, Shown(f)), ",") + "}"
  }

  /** The chained replace calls of toAddress: every '{', '}', '"' and newline is removed. */
  function Strip(s: string): string
  {
    RemoveChar(RemoveChar(RemoveChar(RemoveChar(s, '{'), '}'), '"'), '\n')
  }

  /** `piece.split(":")[1]`: the text between the first and the second ':', if the split has a second piece. */
  function FieldValue(piece: string): Option<string>
  {
    var parts := Split(piece, ':');
    if |parts| >= 2 then Some(parts[1]) else None
  }

  /** toAddress's first step: the string with '{', '}', '"' and newlines removed, split on ','. */
  function Pieces(s: string): seq<string>
  {
    Split(Strip(s), ',')
  }

  /**
   * The six constructor arguments toAddress reads from the pieces: piece i gives field i, whatever
   * its key. Fewer than six pieces, or a piece without a value after its ':', make the source index
   * past the end of an array.
   */
  function FieldsOf(infos: seq<string>): Option<AddressStrings>
  {
    if |infos| >= 6 && forall i :: 0 <= i < 6 ==> FieldValue(infos[i]).Some? then
      Some(AddressStrings(
        FieldValue(infos[0]).value, FieldValue(infos[1]).value, FieldValue(infos[2]).value,
        FieldValue(infos[3]).value, FieldValue(infos[4]).value, FieldValue(infos[5]).value))
    else None
  }

  /** What toAddress extracts from its argument before it calls the constructor. */
  function ParseFields(s: string): Option<AddressStrings>
  {
    FieldsOf(Pieces(s))
  }

  /** vals are the values of the first |vals| pieces. */
  predicate ValuesOf(infos: seq<string>, vals: seq<string>)
  {
    |vals| <= |infos| && forall j :: 0 <= j < |vals| ==> FieldValue(infos[j]) == Some(vals[j])
  }

  /** One more piece read. */
  lemma ValuesOfAppend(infos: seq<string>, vals: seq<string>, x: string)
    requires ValuesOf(infos, vals) && |vals| < |infos| && FieldValue(infos[|vals|]) == Some(x)
    ensures ValuesOf(infos, vals + [x])
  {
  }

  /** A missing piece, or a piece without a value, among the first six makes FieldsOf fail. */
  lemma FieldsOfMissing(infos: seq<string>, i: nat)
    requires i < 6
    requires i >= |infos| || FieldValue(infos[i]).None?
    ensures FieldsOf(infos).None?
  {
  }

  /** Six values read from the first six pieces are the fields FieldsOf gives. */
  lemma FieldsOfPresent(infos: seq<string>, vals: seq<string>)
    requires |vals| == 6 && ValuesOf(infos, vals)
    ensures FieldsOf(infos) == Some(AddressStrings(vals[0], vals[1], vals[2], vals[3], vals[4], vals[5]))
  {
  }

  /** The loop of toAddress that walks the first six pieces and assigns the six locals. */
  method ExtractFields(infos: seq<string>) returns (r: Option<AddressStrings>)
    ensures r == FieldsOf(infos)
  {
    var streetNumber, streetName, city, region, country, postcode := "", "", "", "", "", "";
    ghost var vals: seq<string> := [];
    for i := 0 to 6
      invariant |vals| == i && ValuesOf(infos, vals)
      invariant i > 0 ==> streetNumber == vals[0]
      invariant i > 1 ==> streetName == vals[1]
      invariant i > 2 ==> city == vals[2]
      invariant i > 3 ==> region == vals[3]
      invariant i > 4 ==> country == vals[4]
      invariant i > 5 ==> postcode == vals[5]
    {
      if i >= |infos| {
        FieldsOfMissing(infos, i);
        return None;
      }
      var value := FieldValue(infos[i]);
      if value.None? {
        FieldsOfMissing(infos, i);
        return None;
      }
      var data := value.value;
      ValuesOfAppend(infos, vals, data);
      vals := vals + [data];
      if i == 0 {
        streetNumber := data;
      } else if i == 1 {
        streetName := data;
      } else if i == 2 {
        city := data;
      } else if i == 3 {
        region := data;
      } else if i == 4 {
        country := data;
      } else if i == 5 {
        postcode := data;
      }
    }
    FieldsOfPresent(infos, vals);
    r := Some(AddressStrings(streetNumber, streetName, city, region, country, postcode));
  }

  // ---------------------------------------------------------------------------------------
  // Projections

  /**
   * toAddressPayload: every column, unchanged. The ensures is the definition field by field; what
   * the two projections reveal is stated in SecurePayloadHidesStreetAndPostcode.
   */
  function ToAddressPayload(f: AddressFields): (p: AddressPayload)
    ensures p.streetNumber == f.streetNumber && p.streetName == f.streetName && p.postcode == f.postcode
    ensures p.city == f.city && p.region == f.region && p.country == f.country
  {
    AddressPayload(f.streetNumber, f.streetName, f.city, f.region, f.country, f.postcode)
  }

  /** toAddressPayloadSecure: city, region and country only (a definition, as above). */
  function ToAddressPayloadSecure(f: AddressFields): (p: AddressPayloadSecure)
    ensures p.city == f.city && p.region == f.region && p.country == f.country
  {
    AddressPayloadSecure(f.city, f.region, f.country)
  }

  // ---------------------------------------------------------------------------------------
  // The entity and its back-references

  /** The part of a user entity this class touches: its home-address reference. */
  class User {
    var homeAddress: Address?

    constructor ()
      ensures homeAddress == null
    {
      homeAddress := null;
    }
  }

  /** The part of a business entity this class touches: its address reference. */
  class Business {
    var address: Address?

    constructor ()
      ensures address == null
    {
      address := null;
    }
  }

  class Address {
    var streetNumber: Option<string>
    var streetName: Option<string>
    var city: Option<string>
    var region: Option<string>
    var country: Option<string>
    var postcode: Option<string>
    // The constructor leaves both lists null; the persistence layer or setUsers/setBusinesses fill them.
    var users: Option<seq<User>>
    var businesses: Option<seq<Business>>

    function Fields(): AddressFields
      reads this
    {
      AddressFields(streetNumber, streetName, city, region, country, postcode)
    }

    /** The constructor once every check has passed; Create is the constructor with its failures. */
    constructor (rules: AddressRules, a: AddressStrings)
      requires FirstInvalid(rules, a).None?
      ensures Fields() == Normalised(a)
      ensures users.None? && businesses.None?
    {
      streetNumber := NullIfEmpty(a.streetNumber);
      streetName := NullIfEmpty(a.streetName);
      city := NullIfEmpty(a.city);
      region := NullIfEmpty(a.region);
      country := Some(a.country);
      postcode := NullIfEmpty(a.postcode);
      users := None;
      businesses := None;
    }

    /** `new Address(...)`: throws the first failing check's error, otherwise stores the normalised columns. */
    static method Create(rules: AddressRules, a: AddressStrings) returns (r: Result<Address, AddressError>)
      ensures r.Failure? <==> FirstInvalid(rules, a).Some?
      ensures r.Failure? ==> r.error == FirstInvalid(rules, a).value
      ensures r.Success? ==> fresh(r.value) && r.value.Fields() == Normalised(a)
      ensures r.Success? ==> r.value.users.None? && r.value.businesses.None?
    {
      var e := FirstInvalid(rules, a);
      if e.Some? {
        return Failure(e.value);
      }
      var address := new Address(rules, a);
      return Success(address);
    }

    /** toAddress: extract the six values positionally, then construct. */
    static method ToAddress(rules: AddressRules, s: string) returns (r: Result<Address, AddressError>)
      ensures ParseFields(s).None? ==> r == Failure(Malformed)
      ensures ParseFields(s).Some? ==>
                var a := ParseFields(s).value;
                && (r.Failure? <==> FirstInvalid(rules, a).Some?)
                && (r.Failure? ==> r.error == FirstInvalid(rules, a).value)
                && (r.Success? ==> fresh(r.value) && r.value.Fields() == Normalised(a))
    {
      var fields := ExtractFields(Pieces(s));
      if fields.None? {
        return Failure(Malformed);
      }
      r := Create(rules, fields.value);
    }

    method SetUsers(list: seq<User>)
      modifies this
      ensures users == Some(list)
      ensures Fields() == old(Fields()) && businesses == old(businesses)
    {
      users := Some(list);
    }

    method SetBusinesses(list: seq<Business>)
      modifies this
      ensures businesses == Some(list)
      ensures Fields() == old(Fields()) && users == old(users)
    {
      businesses := Some(list);
    }

    /** addUser: append the user and point its home address here; a null list throws and changes nothing. */
    method AddUser(u: User) returns (ok: bool)
      modifies this, u
      ensures ok <==> old(users).Some?
      ensures ok ==> users == Some(old(users).value + [u]) && u.homeAddress == this
      ensures !ok ==> users == old(users) && u.homeAddress == old(u.homeAddress)
      ensures Fields() == old(Fields()) && businesses == old(businesses)
    {
      if users.None? {
        return false;
      }
      users := Some(users.value + [u]);
      u.homeAddress := this;
      return true;
    }

    /** removeUser: drop the first occurrence of the user and clear its home address, listed or not. */
    method RemoveUser(u: User) returns (ok: bool)
      modifies this, u
      ensures ok <==> old(users).Some?
      ensures ok ==> users == Some(RemoveFirst(old(users).value, u)) && u.homeAddress == null
      ensures !ok ==> users == old(users) && u.homeAddress == old(u.homeAddress)
      ensures Fields() == old(Fields()) && businesses == old(businesses)
    {
      if users.None? {
        return false;
      }
      users := Some(RemoveFirst(users.value, u));
      u.homeAddress := null;
      return true;
    }

    /** addBusiness: append the business and point its address here. */
    method AddBusiness(b: Business) returns (ok: bool)
      modifies this, b
      ensures ok <==> old(businesses).Some?
      ensures ok ==> businesses == Some(old(businesses).value + [b]) && b.address == this
      ensures !ok ==> businesses == old(businesses) && b.address == old(b.address)
      ensures Fields() == old(Fields()) && users == old(users)
    {
      if businesses.None? {
        return false;
      }
      businesses := Some(businesses.value + [b]);
      b.address := this;
      return true;
    }

    /** removeBusiness: drop the first occurrence of the business and clear its address. */
    method RemoveBusiness(b: Business) returns (ok: bool)
      modifies this, b
      ensures ok <==> old(businesses).Some?
      ensures ok ==> businesses == Some(RemoveFirst(old(businesses).value, b)) && b.address == null
      ensures !ok ==> businesses == old(businesses) && b.address == old(b.address)
      ensures Fields() == old(Fields()) && users == old(users)
    {
      if businesses.None? {
        return false;
      }
      businesses := Some(RemoveFirst(businesses.value, b));
      b.address := null;
      return true;
    }
  }

  // ---------------------------------------------------------------------------------------
  // Lemmas

  /** A field value that survives the JSON-ish form: non-empty and free of `{ } " , :` and newlines. */
  predicate Clean(v: string)
  {
    v != "" && forall i :: 0 <= i < |v| ==> v[i] !in "{}\",:\n"
  }

  /** A key that survives the JSON-ish form (it may be empty: the parser ignores it). */
  predicate CleanKey(k: string)
  {
    forall i :: 0 <= i < |k| ==> k[i] !in "{}\",:\n"
  }

  lemma StripConcat(a: string, b: string)
    ensures Strip(a + b) == Strip(a) + Strip(b)
  {
    RemoveCharConcat(a, b, '{');
    RemoveCharConcat(RemoveChar(a, '{'), RemoveChar(b, '{'), '}');
    RemoveCharConcat(RemoveChar(RemoveChar(a, '{'), '}'), RemoveChar(RemoveChar(b, '{'), '}'), '"');
    RemoveCharConcat(RemoveChar(RemoveChar(RemoveChar(a, '{'), '}'), '"'),
                     RemoveChar(RemoveChar(RemoveChar(b, '{'), '}'), '"'), '\n');
  }

  lemma StripKeeps(s: string)
    requires CleanKey(s)
    ensures Strip(s) == s
  {
    RemoveCharAbsent(s, '{');
    RemoveCharAbsent(s, '}');
    RemoveCharAbsent(s, '"');
    RemoveCharAbsent(s, '\n');
  }

  lemma StripChar(c: char)
    ensures Strip([c]) == if c in "{}\"\n" then "" else [c]
  {
    RemoveCharSingle(c, '{');
    RemoveCharSingle(c, '}');
    RemoveCharSingle(c, '"');
    RemoveCharSingle(c, '\n');
    assert RemoveChar("", '}') == "" && RemoveChar("", '"') == "" && RemoveChar("", '\n') == "";
  }

  /** Stripping one member leaves `key:value`. */
  lemma StripMember(k: string, v: string)
    requires CleanKey(k) && CleanKey(v)
    ensures Strip(Member(k, v)) == k + ":" + v
  {
    var q := "\"";
    assert Strip(q) == "" by { StripChar('"'); }
    assert Strip(":") == ":" by { StripChar(':'); }
    assert Strip(k) == k by { StripKeeps(k); }
    assert Strip(v) == v by { StripKeeps(v); }
    var a1 := q + k;
    assert Strip(a1) == k by { StripConcat(q, k); }
    var a2 := a1 + q;
    assert Strip(a2) == k by { StripConcat(a1, q); }
    var a3 := a2 + ":";
    assert Strip(a3) == k + ":" by { StripConcat(a2, ":"); }
    var a4 := a3 + q;
    assert Strip(a4) == k + ":" by { StripConcat(a3, q); }
    var a5 := a4 + v;
    assert Strip(a5) == k + ":" + v by { StripConcat(a4, v); }
    assert Strip(a5 + q) == k + ":" + v by { StripConcat(a5, q); }
    assert Member(k, v) == a5 + q;
  }

  /** Stripping a comma-joined list strips each element. */
  lemma {:induction false} StripJoin(ms: seq<string>, ss: seq<string>)
    requires |ss| == |ms|
    requires forall i :: 0 <= i < |ms| ==> ss[i] == Strip(ms[i])
    ensures Strip(Join(ms, ",")) == Join(ss, ",")
  {
    if |ms| > 1 {
      var rest := Join(ms[1..], ",");
      assert Strip(rest) == Join(ss[1..], ",") by {
        StripJoin(ms[1..], ss[1..]);
      }
      assert Strip(ms[0] + "," + rest) == ss[0] + "," + Strip(rest) by {
        assert Strip(",") == "," by { StripChar(','); }
        StripConcat(ms[0], ",");
        StripConcat(ms[0] + ",", rest);
      }
    }
  }

  /** The value of a `key:value` piece is the value, whatever the key. */
  lemma FieldValueOfPiece(k: string, v: string)
    requires CleanKey(k) && Clean(v)
    ensures FieldValue(k + ":" + v) == Some(v)
  {
    assert ':' !in k;
    assert ':' !in v;
    assert Join([k, v], [':']) == k + ":" + v;
    SplitJoin([k, v], ':');
  }

  /** Stripping the braced, comma-joined members leaves the stripped members joined by ','. */
  lemma StripBraced(ms: seq<string>, ss: seq<string>)
    requires |ss| == |ms|
    requires forall i :: 0 <= i < |ms| ==> ss[i] == Strip(ms[i])
    ensures Strip("{" + Join(ms, ",") + "}") == Join(ss, ",")
  {
    var j := Join(ms, ",");
    assert Strip(j) == Join(ss, ",") by { StripJoin(ms, ss); }
    assert Strip("{" + j) == Strip(j) by {
      StripChar('{');
      StripConcat("{", j);
    }
    assert Strip("{" + j + "}") == Strip("{" + j) by {
      StripChar('}');
      StripConcat("{" + j, "}");
    }
  }

  /** Six pieces whose values are set give the six values, whatever the keys. */
  lemma FieldsOfPieces(keys: seq<string>, vals: seq<string>)
    requires |keys| == 6 && |vals| == 6
    requires forall i :: 0 <= i < 6 ==> CleanKey(keys[i]) && Clean(vals[i])
    ensures FieldsOf(seq(6, i requires 0 <= i < 6 => keys[i] + ":" + vals[i]))
            == Some(AddressStrings(vals[0], vals[1], vals[2], vals[3], vals[4], vals[5]))
  {
    var ps := seq(6, i requires 0 <= i < 6 => keys[i] + ":" + vals[i]);
    forall i | 0 <= i < 6 ensures FieldValue(ps[i]) == Some(vals[i]) {
      FieldValueOfPiece(keys[i], vals[i]);
    }
  }

  /**
   * The parser is positional: six `"key":"value"` members with any keys give back the six values,
   * provided no value is empty or holds one of `{ } " , :` or a newline.
   */
  lemma ParsePositional(keys: seq<string>, vals: seq<string>)
    requires |keys| == 6 && |vals| == 6
    requires forall i :: 0 <= i < 6 ==> CleanKey(keys[i]) && Clean(vals[i])
    ensures ParseFields("{" + Join(Members(keys, vals), ",") + "}")
            == Some(AddressStrings(vals[0], vals[1], vals[2], vals[3], vals[4], vals[5]))
  {
    var ms := Members(keys, vals);
    var ps := seq(6, i requires 0 <= i < 6 => keys[i] + ":" + vals[i]);
    assert Strip("{" + Join(ms, ",") + "}") == Join(ps, [',']) by {
      forall i | 0 <= i < 6 ensures Strip(ms[i]) == ps[i] {
        assert CleanKey(vals[i]);
        StripMember(keys[i], vals[i]);
      }
      StripBraced(ms, ps);
    }
    assert Split(Join(ps, [',']), ',') == ps by {
      assert ps[5] != "" by {
        assert ps[5][|keys[5]|] == ':';
      }
      forall i | 0 <= i < 6 ensures ',' !in ps[i] {
        assert ps[i] == keys[i] + ":" + vals[i];
      }
      SplitJoin(ps, ',');
    }
    FieldsOfPieces(keys, vals);
  }

  /**
   * Round trip: toAddress(a.toStringJSON()) reads back the six columns, and the constructor's
   * normalisation then gives the same address, when every column is set, non-empty and free of
   * `{ } " , :` and newlines.
   */
  lemma JsonRoundTrip(f: AddressFields)
    requires f.streetNumber.Some? && f.streetName.Some? && f.city.Some?
    requires f.region.Some? && f.country.Some? && f.postcode.Some?
    requires Clean(f.streetNumber.value) && Clean(f.streetName.value) && Clean(f.city.value)
    requires Clean(f.region.value) && Clean(f.country.value) && Clean(f.postcode.value)
    ensures ParseFields(ToStringJson(f)).Some?
    ensures Normalised(ParseFields(ToStringJson(f)).value) == f
  {
    var vals := Shown(f);
    assert ParseFields(ToStringJson(f)) == Some(AddressStrings(vals[0], vals[1], vals[2], vals[3], vals[4], vals[5])) by {
      assert forall i :: 0 <= i < 6 ==> CleanKey(JsonKeys[i]) && Clean(vals[i]);
      ParsePositional(JsonKeys, vals);
    }
  }

  /** The secure projection depends on city, region and country only: street and postcode never leak. */
  lemma SecurePayloadHidesStreetAndPostcode(f: AddressFields, g: AddressFields)
    requires f.city == g.city && f.region == g.region && f.country == g.country
    ensures ToAddressPayloadSecure(f) == ToAddressPayloadSecure(g)
    ensures ToAddressPayload(f) == ToAddressPayload(g) <==> f == g
  {
  }
}
