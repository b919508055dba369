/**
 * The Person schema's own logic: the `year_joined` setter, its validator and
 * conditional `required`, the field defaults, and the JSON/Object transform.
 */
module PersonSchema {
  import opened Wrappers
  import opened JsText

  /** A JavaScript `Date`, as the UTC calendar fields it denotes (month counts from 0, as in JavaScript). */
  datatype UtcDate = UtcDate(year: int, month: nat, day: nat, msOfDay: nat)

  /** The values a caller can hand to the `year_joined` setter (numbers restricted to integers). */
  datatype JsValue =
    | JDate(date: UtcDate)
    | JString(text: string)
    | JNumber(n: int)
    | JBool(b: bool)
    | JNull
    | JUndefined
    | JObject

  /** `Date.prototype.getUTCFullYear`. */
  function UtcFullYear(d: UtcDate): int {
    d.year
  }

  /** MakeFullYear inside `Date.UTC` (ECMA-262, section 21.4.3.4): integer years 0 to 99 denote 1900 to 1999. */
  function MakeFullYear(y: int): (r: int)
    ensures 0 <= y <= 99 ==> r == 1900 + y
    ensures !(0 <= y <= 99) ==> r == y
  {
    if 0 <= y <= 99 then 1900 + y else y
  }

  /** `new Date(Date.UTC(y, 0, 1))`: midnight UTC on 1 January of the year that `Date.UTC` makes of `y`. */
  function Jan1Utc(y: int): (d: UtcDate)
    ensures d.month == 0 && d.day == 1 && d.msOfDay == 0
    ensures UtcFullYear(d) == MakeFullYear(y)
  {
    UtcDate(MakeFullYear(y), 0, 1, 0)
  }

  /** The year a text stands for when its trimmed form matches `/^\d{4}$/`, otherwise the original value. */
  function YearFromText(text: string, original: JsValue): (r: JsValue)
    ensures r == original || (r.JDate? && r.date.month == 0 && r.date.day == 1 && r.date.msOfDay == 0)
    ensures r != original ==> 100 <= UtcFullYear(r.date) <= 9999
    ensures r != original ==> IsFourDigits(Trim(text)) && UtcFullYear(r.date) == MakeFullYear(DigitsValue(Trim(text)))
  {
    var s := Trim(text);
    if IsFourDigits(s) then JDate(Jan1Utc(DigitsValue(s))) else original
  }

  /**
   * The `year_joined` setter. A `Date` is kept; a string or number whose trimmed text is four ASCII
   * digits becomes 1 January of that year; anything else passes through. Whatever it changes, it
   * turns into a 1 January midnight of a year between 100 and 9999.
   */
  function SetYearJoined(v: JsValue): (r: JsValue)
    ensures v.JDate? ==> r == v
    ensures !v.JString? && !v.JNumber? ==> r == v
    ensures r != v ==> r.JDate? && r.date.month == 0 && r.date.day == 1 && r.date.msOfDay == 0
    ensures r != v ==> 100 <= UtcFullYear(r.date) <= 9999
  {
    match v
    case JString(s) => YearFromText(s, v)
    case JNumber(n) => YearFromText(IntToString(n), v)
    case _ => v
  }

  /** `s` is four ASCII digits at position `i`, with nothing but whitespace before and after them. */
  ghost predicate PaddedYear(s: string, i: int) {
    0 <= i && i + 4 <= |s| && AllWhitespace(s[..i]) && IsFourDigits(s[i..i + 4]) && AllWhitespace(s[i + 4..])
  }

  lemma PaddedYearSplit(s: string, i: int)
    requires PaddedYear(s, i)
    ensures s == s[..i] + s[i..i + 4] + s[i + 4..]
    ensures Trim(s) == s[i..i + 4]
  {
    var d := s[i..i + 4];
    assert !IsWhitespace(d[0]) && !IsWhitespace(d[3]) by {
      assert IsAsciiDigit(d[0]) && IsAsciiDigit(d[3]);
    }
    assert s == s[..i] + d + s[i + 4..];
    TrimPadded(s[..i], d, s[i + 4..]);
  }

  /** A string holding four ASCII digits between runs of whitespace becomes 1 January of the year they spell. */
  lemma StringSetterIfPadded(s: string, i: int)
    requires PaddedYear(s, i)
    ensures SetYearJoined(JString(s)) == JDate(Jan1Utc(DigitsValue(s[i..i + 4])))
  {
    PaddedYearSplit(s, i);
  }

  /** A string that is not four ASCII digits between runs of whitespace is returned unchanged. */
  lemma StringSetterOnlyIfPadded(s: string)
    requires forall i :: !PaddedYear(s, i)
    ensures SetYearJoined(JString(s)) == JString(s)
  {
    var t := TrimStart(s);
    var k := |s| - |t|;
    var u := TrimEnd(t);
    if IsFourDigits(u) {
      assert t == s[k..];
      assert u == s[k..k + 4] by {
        assert u == t[..4];
      }
      assert s[k + 4..] == t[4..];
      assert s[..k] == s[..|s| - |t|];
      assert PaddedYear(s, k);
      assert false;
    }
  }

  /** A number becomes 1 January of that year exactly when it has four decimal digits; any other number passes through. */
  lemma NumberSetter(n: int)
    ensures SetYearJoined(JNumber(n)) == if 1000 <= n <= 9999 then JDate(Jan1Utc(n)) else JNumber(n)
  {
    IntToStringTrimmed(n);
    IntToStringFourDigits(n);
  }

  /**
   * Round trip: a four-digit string given to the setter and then serialised comes back as the
   * integer it spells when that is 100 or more, and as 1900 plus it when it is below 100.
   */
  lemma StringYearRoundTrip(s: string, i: int)
    requires PaddedYear(s, i)
    ensures var v := DigitsValue(s[i..i + 4]);
      SetYearJoined(JString(s)).JDate? &&
      UtcFullYear(SetYearJoined(JString(s)).date) == (if v < 100 then 1900 + v else v)
  {
    StringSetterIfPadded(s, i);
  }

  /** A bare four-digit string is its own padded year, and its value is read digit by digit. */
  lemma BareFourDigits(s: string)
    requires IsFourDigits(s)
    ensures PaddedYear(s, 0)
    ensures DigitsValue(s) ==
      1000 * DigitValue(s[0]) + 100 * DigitValue(s[1]) + 10 * DigitValue(s[2]) + DigitValue(s[3])
  {
    assert s[..0] == [] && s[0..4] == s && s[4..] == [];
    var s3, s2, s1 := s[..3], s[..2], s[..1];
    assert s3[..2] == s2 && s2[..1] == s1 && s1[..0] == [];
    assert DigitsValue(s1) == DigitValue(s[0]);
    assert DigitsValue(s2) == 10 * DigitValue(s[0]) + DigitValue(s[1]);
    assert DigitsValue(s3) == 100 * DigitValue(s[0]) + 10 * DigitValue(s[1]) + DigitValue(s[2]);
  }

  /** The ECMA-262 edge case: "0050" is stored as 1 January 1950. */
  lemma SetterYearFifty()
    ensures SetYearJoined(JString("0050")) == JDate(UtcDate(1950, 0, 1, 0))
  {
    BareFourDigits("0050");
    StringSetterIfPadded("0050", 0);
    assert "0050"[0..4] == "0050";
  }

  /*
   * Validation of `year_joined`: the custom validator, the conditional `required`,
   * and the order in which Mongoose applies them.
   */

  datatype ValidationError = YearJoinedRequired | YearJoinedNotAllowed

  /** The custom validator: a present `year_joined` is refused when the person is not a band member. */
  predicate YearJoinedValidator(bandMember: bool, value: Option<UtcDate>)
    ensures bandMember ==> YearJoinedValidator(bandMember, value)
    ensures value.None? ==> YearJoinedValidator(bandMember, value)
    ensures !bandMember && value.Some? ==> !YearJoinedValidator(bandMember, value)
  {
    !(!bandMember && value.Some?)
  }

  /** The conditional `required`: `year_joined` must be present when `band_member` is true. */
  predicate YearJoinedIsRequired(bandMember: bool)
    ensures YearJoinedIsRequired(bandMember) <==> bandMember
  {
    bandMember == true
  }

  /**
   * Mongoose checks `required` first and runs the custom validator only on a present value.
   * Together they accept exactly the documents where `year_joined` is present if and only if
   * the person is a band member.
   */
  function ValidateYearJoined(bandMember: bool, value: Option<UtcDate>): (r: Outcome<ValidationError>)
    ensures r.Pass? <==> (bandMember && value.Some?) || (!bandMember && value.None?)
    ensures r == Fail(YearJoinedRequired) <==> bandMember && value.None?
    ensures r == Fail(YearJoinedNotAllowed) <==> !bandMember && value.Some?
  {
    if YearJoinedIsRequired(bandMember) && value.None? then Fail(YearJoinedRequired)
    else if value.Some? && !YearJoinedValidator(bandMember, value) then Fail(YearJoinedNotAllowed)
    else Pass
  }

  /*
   * Documents: what a caller submits, and what is stored after setters, casting, defaults and validation.
   */

  datatype ObjectId = ObjectId(hex: nat)

  /** A submitted Person. `None` is an absent field; for `alias` and `ipi_number`, `Some(None)` is an explicit null. */
  datatype PersonInput = PersonInput(
    firstName: string,
    surName: string,
    alias: Option<Option<string>>,
    bandMember: Option<bool>,
    yearJoined: JsValue,
    ipiNumber: Option<Option<string>>,
    instrument: seq<ObjectId>,
    releaseEntity: seq<ObjectId>)

  /** A stored Person; `alias` is absent (`None`), null (`Some(None)`) or a string, and `ipiNumber == None` is null. */
  datatype PersonDoc = PersonDoc(
    firstName: string,
    surName: string,
    alias: Option<Option<string>>,
    bandMember: bool,
    yearJoined: Option<UtcDate>,
    ipiNumber: Option<string>,
    instrument: seq<ObjectId>,
    releaseEntity: seq<ObjectId>)

  datatype WriteError = CastError | Invalid(error: ValidationError)

  /** What Mongoose's `Date` cast makes of a value: a date, an empty path, or a cast error. */
  datatype DateCast = CastDate(date: UtcDate) | CastEmpty | CastFailed

  /**
   * Mongoose's cast of the setter's result to the `Date` path type. A `Date` is kept; null,
   * undefined and the empty string leave the path empty; every other value goes to the rest of
   * Mongoose's `Date` cast, given here as `castOther`, which may also leave the path empty.
   */
  function CastYearJoined(v: JsValue, castOther: JsValue -> DateCast): (r: Result<Option<UtcDate>, WriteError>)
    ensures v.JDate? ==> r == Ok(Some(v.date))
    ensures v.JNull? || v.JUndefined? || v == JString("") ==> r == Ok(None)
    ensures !v.JDate? && !v.JNull? && !v.JUndefined? && v != JString("") ==>
      (r == Err(CastError) <==> castOther(v).CastFailed?) &&
      (r == Ok(None) <==> castOther(v).CastEmpty?) &&
      (castOther(v).CastDate? ==> r == Ok(Some(castOther(v).date)))
  {
    match v
    case JDate(d) => Ok(Some(d))
    case JNull => Ok(None)
    case JUndefined => Ok(None)
    case _ =>
      if v == JString("") then Ok(None)
      else
        match castOther(v)
        case CastDate(d) => Ok(Some(d))
        case CastEmpty => Ok(None)
        case CastFailed => Err(CastError)
  }

  /** The defaults of lines 16 and 39: an absent `band_member` is false, an absent `ipi_number` is null. */
  function ApplyDefaults(input: PersonInput, yearJoined: Option<UtcDate>): (doc: PersonDoc)
    ensures input.bandMember.None? ==> !doc.bandMember
    ensures input.bandMember.Some? ==> doc.bandMember == input.bandMember.value
    ensures input.ipiNumber.None? ==> doc.ipiNumber.None?
    ensures input.ipiNumber.Some? ==> doc.ipiNumber == input.ipiNumber.value
    ensures doc.yearJoined == yearJoined && doc.alias == input.alias
  {
    PersonDoc(input.firstName, input.surName, input.alias, input.bandMember.GetOr(false),
              yearJoined, input.ipiNumber.GetOr(None), input.instrument, input.releaseEntity)
  }

  /**
   * Building a Person to be saved: the setter, the cast, the defaults, then validation.
   * An input is accepted exactly when its cast succeeds and the cast year passes validation, and
   * then the stored document is the input with its defaults and that year. Every stored document
   * has `year_joined` exactly when it is a band member.
   */
  function NewDocument(input: PersonInput, castOther: JsValue -> DateCast): (r: Result<PersonDoc, WriteError>)
    ensures var c := CastYearJoined(SetYearJoined(input.yearJoined), castOther);
      r.Ok? <==> c.Ok? && ValidateYearJoined(input.bandMember.GetOr(false), c.value).Pass?
    ensures var c := CastYearJoined(SetYearJoined(input.yearJoined), castOther);
      r.Ok? ==> r.value == ApplyDefaults(input, c.value)
    ensures var c := CastYearJoined(SetYearJoined(input.yearJoined), castOther);
      c.Err? ==> r == Err(CastError)
    ensures r.Ok? ==> (r.value.bandMember <==> r.value.yearJoined.Some?)
    ensures r.Ok? ==> r.value.firstName == input.firstName && r.value.surName == input.surName
    ensures input.yearJoined.JDate? && input.bandMember != Some(true) ==> r == Err(Invalid(YearJoinedNotAllowed))
    ensures (input.yearJoined.JNull? || input.yearJoined.JUndefined?) && input.bandMember == Some(true)
      ==> r == Err(Invalid(YearJoinedRequired))
  {
    match CastYearJoined(SetYearJoined(input.yearJoined), castOther)
    case Err(e) => Err(e)
    case Ok(yearJoined) =>
      var doc := ApplyDefaults(input, yearJoined);
      match ValidateYearJoined(doc.bandMember, doc.yearJoined)
      case Fail(e) => Err(Invalid(e))
      case Pass => Ok(doc)
  }

  /*
   * Serialisation: `toJSON` and, sharing the same options (line 61), `toObject`.
   */

  /** The plain values a document turns into. */
  datatype Value =
    | VDate(date: UtcDate)
    | VNum(n: int)
    | VStr(s: string)
    | VBool(b: bool)
    | VNull
    | VUndefined
    | VId(oid: ObjectId)
    | VIds(oids: seq<ObjectId>)

  /** JavaScript truthiness of a plain value. */
  predicate Truthy(v: Value) {
    match v
    case VDate(_) => true
    case VNum(n) => n != 0
    case VStr(s) => s != ""
    case VBool(b) => b
    case VNull => false
    case VUndefined => false
    case VId(_) => true
    case VIds(_) => true
  }

  /** The `year_joined` path has type `Date`, so the object handed to the transform holds a date there or nothing. */
  predicate YearJoinedIsDate(ret: map<string, Value>) {
    "year_joined" in ret ==> ret["year_joined"].VDate? || ret["year_joined"].VNull? || ret["year_joined"].VUndefined?
  }

  /**
   * What the transform leaves of `ret`: a present `year_joined` becomes its UTC full year, `id`
   * holds what `_id` held, `_id` is gone, and every other key keeps its value.
   */
  function Transformed(ret: map<string, Value>): (r: map<string, Value>)
    requires YearJoinedIsDate(ret)
    ensures "_id" !in r
    ensures "id" in r && r["id"] == (if "_id" in ret then ret["_id"] else VUndefined)
    ensures "year_joined" in r <==> "year_joined" in ret
    ensures "year_joined" in ret && ret["year_joined"].VDate?
      ==> r["year_joined"] == VNum(UtcFullYear(ret["year_joined"].date))
    ensures "year_joined" in ret && !ret["year_joined"].VDate? ==> r["year_joined"] == ret["year_joined"]
    ensures forall k :: k in ret && k != "year_joined" && k != "id" && k != "_id" ==> k in r && r[k] == ret[k]
    ensures forall k :: k in r ==> k in ret || k == "id"
  {
    var withYear :=
      if "year_joined" in ret && Truthy(ret["year_joined"])
      then ret["year_joined" := VNum(UtcFullYear(ret["year_joined"].date))]
      else ret;
    var withId := withYear["id" := if "_id" in withYear then withYear["_id"] else VUndefined];
    withId - {"_id"}
  }

  /** The object the transform receives, which it changes in place. */
  class ReturnObject {
    var fields: map<string, Value>

    constructor (fields: map<string, Value>)
      ensures this.fields == fields
    {
      this.fields := fields;
    }

    /** The `transform` callback of the `toJSON` options. */
    method Transform()
      requires YearJoinedIsDate(fields)
      modifies this
      ensures fields == Transformed(old(fields))
    {
      if "year_joined" in fields && Truthy(fields["year_joined"]) {
        var d := fields["year_joined"].date;
        fields := fields["year_joined" := VNum(UtcFullYear(d))];
      }
      fields := fields["id" := if "_id" in fields then fields["_id"] else VUndefined];
      fields := fields - {"_id"};
    }
  }

  /** The plain object Mongoose builds from a stored document, before options are applied. */
  function Raw(doc: PersonDoc, id: ObjectId, version: nat): (ret: map<string, Value>)
    ensures YearJoinedIsDate(ret)
    ensures "_id" in ret && ret["_id"] == VId(id)
    ensures "__v" in ret && ret["__v"] == VNum(version)
    ensures "year_joined" in ret <==> doc.yearJoined.Some?
    ensures doc.yearJoined.Some? ==> ret["year_joined"] == VDate(doc.yearJoined.value)
    ensures "first_name" in ret && ret["first_name"] == VStr(doc.firstName)
    ensures "sur_name" in ret && ret["sur_name"] == VStr(doc.surName)
    ensures "band_member" in ret && ret["band_member"] == VBool(doc.bandMember)
    ensures "alias" in ret <==> doc.alias.Some?
    ensures doc.alias == Some(None) ==> ret["alias"] == VNull
    ensures doc.alias.Some? && doc.alias.value.Some? ==> ret["alias"] == VStr(doc.alias.value.value)
    ensures "ipi_number" in ret && (ret["ipi_number"] == VNull <==> doc.ipiNumber.None?)
    ensures doc.ipiNumber.Some? ==> ret["ipi_number"] == VStr(doc.ipiNumber.value)
    ensures "instrument" in ret && ret["instrument"] == VIds(doc.instrument)
    ensures "release_entity" in ret && ret["release_entity"] == VIds(doc.releaseEntity)
  {
    var base := map[
      "_id" := VId(id),
      "first_name" := VStr(doc.firstName),
      "sur_name" := VStr(doc.surName),
      "band_member" := VBool(doc.bandMember),
      "ipi_number" := (if doc.ipiNumber.Some? then VStr(doc.ipiNumber.value) else VNull),
      "instrument" := VIds(doc.instrument),
      "release_entity" := VIds(doc.releaseEntity),
      "__v" := VNum(version)];
    var withAlias :=
      if doc.alias.None? then base
      else base["alias" := (if doc.alias.value.Some? then VStr(doc.alias.value.value) else VNull)];
    if doc.yearJoined.Some? then withAlias["year_joined" := VDate(doc.yearJoined.value)] else withAlias
  }

  /** The serialisation options of the schema that matter here. */
  datatype SerialiseOptions = SerialiseOptions(versionKey: bool)

  const ToJsonOptions := SerialiseOptions(versionKey := false)

  /** `personSchema.set('toObject', personSchema.get('toJSON'))`. */
  const ToObjectOptions := ToJsonOptions

  /** The version key is emitted exactly when the options ask for it; `_id` is always renamed to `id`. */
  function Serialise(options: SerialiseOptions, doc: PersonDoc, id: ObjectId, version: nat): (r: map<string, Value>)
    ensures "__v" in r <==> options.versionKey
    ensures options.versionKey ==> r["__v"] == VNum(version)
    ensures "_id" !in r && "id" in r && r["id"] == VId(id)
  {
    var raw := Raw(doc, id, version);
    Transformed(if options.versionKey then raw else raw - {"__v"})
  }

  /**
   * `toJSON`: `id` carries the document's id, `_id` and the version key are gone, and
   * `year_joined` is the UTC full year of the stored date when there is one and absent otherwise.
   */
  function ToJson(doc: PersonDoc, id: ObjectId, version: nat): (r: map<string, Value>)
    ensures "_id" !in r && "__v" !in r
    ensures "id" in r && r["id"] == VId(id)
    ensures "year_joined" in r <==> doc.yearJoined.Some?
    ensures doc.yearJoined.Some? ==> r["year_joined"] == VNum(UtcFullYear(doc.yearJoined.value))
  {
    var raw := Raw(doc, id, version);
    var kept := raw - {"__v"};
    assert "_id" in kept && kept["_id"] == VId(id);
    assert "year_joined" in kept <==> doc.yearJoined.Some?;
    assert doc.yearJoined.Some? ==> kept["year_joined"] == VDate(doc.yearJoined.value);
    var r := Transformed(kept);
    assert r == Serialise(ToJsonOptions, doc, id, version);
    r
  }

  /** `toJSON` leaves every other field as stored. */
  lemma ToJsonKeepsOtherFields(doc: PersonDoc, id: ObjectId, version: nat)
    ensures var r := ToJson(doc, id, version);
      "first_name" in r && r["first_name"] == VStr(doc.firstName) &&
      "sur_name" in r && r["sur_name"] == VStr(doc.surName) &&
      "band_member" in r && r["band_member"] == VBool(doc.bandMember) &&
      ("alias" in r <==> doc.alias.Some?) &&
      (doc.alias == Some(None) ==> r["alias"] == VNull) &&
      (doc.alias.Some? && doc.alias.value.Some? ==> r["alias"] == VStr(doc.alias.value.value)) &&
      "ipi_number" in r && (r["ipi_number"] == VNull <==> doc.ipiNumber.None?) &&
      (doc.ipiNumber.Some? ==> r["ipi_number"] == VStr(doc.ipiNumber.value)) &&
      "instrument" in r && r["instrument"] == VIds(doc.instrument) &&
      "release_entity" in r && r["release_entity"] == VIds(doc.releaseEntity)
  {
    var raw := Raw(doc, id, version);
    var kept := raw - {"__v"};
    var r := Transformed(kept);
    assert r == ToJson(doc, id, version);
    assert "first_name" in kept && "sur_name" in kept && "band_member" in kept;
    assert "ipi_number" in kept && "instrument" in kept && "release_entity" in kept;
    assert "alias" in kept <==> doc.alias.Some?;
  }

  /** `toObject` uses the same options, so it yields the same object as `toJSON`. */
  function ToObject(doc: PersonDoc, id: ObjectId, version: nat): (r: map<string, Value>)
    ensures r == ToJson(doc, id, version)
  {
    Serialise(ToObjectOptions, doc, id, version)
  }

  /**
   * End to end: a band member submitted with four digits between whitespace is accepted, and
   * `toJSON` gives back the integer they spell, or 1900 plus it when it is below 100.
   */
  lemma PaddedYearRoundTrip(input: PersonInput, castOther: JsValue -> DateCast, id: ObjectId, version: nat, i: int)
    requires input.bandMember == Some(true) && input.yearJoined.JString? && PaddedYear(input.yearJoined.text, i)
    ensures NewDocument(input, castOther).Ok?
    ensures var v := DigitsValue(input.yearJoined.text[i..i + 4]);
      var r := ToJson(NewDocument(input, castOther).value, id, version);
      "year_joined" in r && r["year_joined"] == VNum(if v < 100 then 1900 + v else v)
  {
    var s := input.yearJoined.text;
    var v := DigitsValue(s[i..i + 4]);
    StringSetterIfPadded(s, i);
    var d := Jan1Utc(v);
    assert SetYearJoined(input.yearJoined) == JDate(d);
    assert CastYearJoined(JDate(d), castOther) == Ok(Some(d));
    assert ValidateYearJoined(true, Some(d)).Pass?;
    var doc := ApplyDefaults(input, Some(d));
    assert NewDocument(input, castOther) == Ok(doc);
    assert UtcFullYear(d) == if v < 100 then 1900 + v else v;
    YearJoinedSerialised(doc, d, id, version);
  }

  /** A stored date of joining serialises as its UTC full year. */
  lemma YearJoinedSerialised(doc: PersonDoc, d: UtcDate, id: ObjectId, version: nat)
    requires doc.yearJoined == Some(d)
    ensures "year_joined" in ToJson(doc, id, version) && ToJson(doc, id, version)["year_joined"] == VNum(UtcFullYear(d))
  {
  }

  /** A band member submitted with year "1969" is accepted and serialises back out with `year_joined` the integer 1969. */
  lemma BandMemberYearRoundTrip(input: PersonInput, castOther: JsValue -> DateCast, id: ObjectId, version: nat)
    requires input.bandMember == Some(true) && input.yearJoined == JString("1969")
    ensures NewDocument(input, castOther).Ok?
    ensures var doc := NewDocument(input, castOther).value;
      "year_joined" in ToJson(doc, id, version) && ToJson(doc, id, version)["year_joined"] == VNum(1969)
  {
    BareFourDigits("1969");
    PaddedYearRoundTrip(input, castOther, id, version, 0);
    assert "1969"[0..4] == "1969";
  }

  /** A person who is not a band member cannot be saved with a year "1969". */
  lemma NonMemberYearRejected(input: PersonInput, castOther: JsValue -> DateCast)
    requires input.bandMember != Some(true) && input.yearJoined == JString("1969")
    ensures NewDocument(input, castOther) == Err(Invalid(YearJoinedNotAllowed))
  {
    BareFourDigits("1969");
    StringSetterIfPadded("1969", 0);
  }
}
