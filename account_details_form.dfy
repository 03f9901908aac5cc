/**
 * The account-details form: the default values it derives from the stored
 * user, the rule its schema puts on the name, and the cleaning that turns
 * blank strings into `undefined` before the values are sent. Form values are
 * a map from field name to value, as `Object.entries` sees them.
 */
module AccountDetailsForm {
  import opened Wrappers
  import opened JsText

  /** The stored user's profile fields; the database leaves each of them null or set. */
  datatype User = User(
    name: Option<string>,
    phone: Option<string>,
    registrationNumber: Option<string>,
    course: Option<string>,
    graduationYear: Option<string>,
    dayScholar: Option<bool>,
    instagramUrl: Option<string>,
    facebookUrl: Option<string>,
    githubUrl: Option<string>,
    linkedinUrl: Option<string>,
    twitterUrl: Option<string>)

  /** A form value: a string, the day-scholar checkbox, or `undefined`. */
  datatype FormValue = Str(s: string) | Bool(b: bool) | Undefined

  type FormValues = map<string, FormValue>

  /** The text fields of the form, every field except `dayScholar`. */
  const TextKeys: set<string> := {"name", "phone", "registrationNumber", "course", "graduationYear",
    "instagramUrl", "facebookUrl", "githubUrl", "linkedinUrl", "twitterUrl"}

  /** All fields of the form. */
  const FormKeys: set<string> := TextKeys + {"dayScholar"}

  /** `v || ""` on a nullable string: null and "" both give "". */
  function OrEmpty(v: Option<string>): (r: string)
    ensures r == "" <==> v.None? || v.value == ""
    ensures r != "" ==> v == Some(r)
  {
    if v.Some? && Truthy(v.value) then v.value else ""
  }

  /** `v ?? false` on a nullable boolean: only null gives false; a stored false stays false. */
  function OrFalse(v: Option<bool>): (r: bool)
    ensures v.Some? ==> r == v.value
    ensures v.None? ==> !r
  {
    if v.Some? then v.value else false
  }

  /** The form as the schema types it: every field present, the name and the text fields strings or
      undefined, the day-scholar field a boolean. */
  predicate WellTyped(data: FormValues) {
    data.Keys == FormKeys
    && (forall k :: k in TextKeys ==> !data[k].Bool?)
    && data["dayScholar"].Bool?
  }

  /** The stored field behind each text field of the form. */
  function Stored(u: User, key: string): Option<string> {
    if key == "name" then u.name
    else if key == "phone" then u.phone
    else if key == "registrationNumber" then u.registrationNumber
    else if key == "course" then u.course
    else if key == "graduationYear" then u.graduationYear
    else if key == "instagramUrl" then u.instagramUrl
    else if key == "facebookUrl" then u.facebookUrl
    else if key == "githubUrl" then u.githubUrl
    else if key == "linkedinUrl" then u.linkedinUrl
    else if key == "twitterUrl" then u.twitterUrl
    else None
  }

  /** The form's default values for a stored user: every text field is its stored value or "", the
      checkbox is the stored flag or false. */
  function DefaultValues(u: User): (r: FormValues)
    ensures r.Keys == FormKeys
    ensures forall k :: k in TextKeys ==> r[k].Str? && (r[k].s == "" <==> Stored(u, k).None? || Stored(u, k).value == "")
    ensures forall k :: k in TextKeys && r[k].s != "" ==> Stored(u, k) == Some(r[k].s)
    ensures r["dayScholar"] == Bool(OrFalse(u.dayScholar))
  {
    map k | k in FormKeys :: if k == "dayScholar" then Bool(OrFalse(u.dayScholar)) else Str(OrEmpty(Stored(u, k)))
  }

  /** The defaults fit the schema's types. */
  lemma DefaultsWellTyped(u: User)
    ensures WellTyped(DefaultValues(u))
  {
  }

  /** A string value that trims to "". */
  predicate IsBlankString(v: FormValue) {
    v.Str? && IsBlank(v.s)
  }

  /** One entry of `cleanedData`. */
  function CleanValue(v: FormValue): (r: FormValue)
    ensures IsBlankString(v) ==> r == Undefined
    ensures !IsBlankString(v) ==> r == v
  {
    if IsBlankString(v) then Undefined else v
  }

  /** `cleanedData`: every entry kept under its key, blank strings replaced by undefined, every other
      value (non-blank strings untrimmed, booleans, undefined) passed through. */
  function Clean(data: FormValues): (r: FormValues)
    ensures r.Keys == data.Keys
    ensures forall k :: k in data && IsBlankString(data[k]) ==> r[k] == Undefined
    ensures forall k :: k in data && !IsBlankString(data[k]) ==> r[k] == data[k]
    ensures forall k :: k in r ==> !IsBlankString(r[k])
  {
    map k | k in data :: CleanValue(data[k])
  }

  /** Cleaning twice is cleaning once. */
  lemma CleanIdempotent(data: FormValues)
    ensures Clean(Clean(data)) == Clean(data)
  {
  }

  /** Cleaning keeps a well-typed form well typed. */
  lemma CleanWellTyped(data: FormValues)
    requires WellTyped(data)
    ensures WellTyped(Clean(data))
  {
  }

  /** The schema's name rule: a string at least two UTF-16 code units long. Any two characters pass it; an
      empty name fails it; a single character passes only when it lies beyond the Basic Multilingual Plane. */
  predicate NameValid(name: FormValue)
    ensures name.Str? && |name.s| >= 2 ==> NameValid(name)
    ensures NameValid(name) ==> name.Str? && name.s != ""
    ensures name.Str? && |name.s| == 1 ==> (NameValid(name) <==> name.s[0] as int > 0xFFFF)
  {
    name.Str? && Utf16Length(name.s) >= 2
  }

  /** One character outside the Basic Multilingual Plane is two code units long, so it passes the name rule. */
  lemma AstralNameAccepted()
    ensures NameValid(Str("\U{1D49C}"))
  {
    assert Utf16Length("\U{1D49C}") == Utf16Length([]) + 2;
  }

  /** Submitting: the schema is checked first, and only a valid form is cleaned and sent. */
  function Submit(data: FormValues): (r: Result<FormValues, string>)
    requires WellTyped(data)
    ensures r.Failure? <==> !NameValid(data["name"])
    ensures r.Success? ==> r.value == Clean(data)
  {
    if !NameValid(data["name"]) then Failure("Name must be at least 2 characters.") else Success(Clean(data))
  }

  /** A user with no name stored cannot submit the untouched form. */
  lemma UnnamedUserMustEnterName(u: User)
    requires u.name.None?
    ensures Submit(DefaultValues(u)).Failure?
  {
  }

  /** The name rule counts code units before cleaning, so a name of two spaces passes it and is then
      sent as undefined. */
  lemma BlankNamePassesThenVanishes(data: FormValues)
    requires WellTyped(data) && data["name"] == Str("  ")
    ensures Submit(data).Success? && Submit(data).value["name"] == Undefined
  {
  }

  /** The untouched defaults of a user with every optional field null are sent with all of them undefined,
      and the day-scholar flag false. */
  lemma EmptyDefaultsClean(u: User, name: string)
    requires u.name == Some(name) && !IsBlank(name)
    requires forall k :: k in TextKeys - {"name"} ==> Stored(u, k).None?
    requires u.dayScholar.None?
    ensures var r := Clean(DefaultValues(u));
      r["name"] == Str(name) && r["dayScholar"] == Bool(false)
      && forall k :: k in TextKeys - {"name"} ==> r[k] == Undefined
  {
    StoredNameKept(u, name);
    forall k | k in TextKeys - {"name"}
      ensures Clean(DefaultValues(u))[k] == Undefined
    {
      NullDefaultCleansToUndefined(u, k);
    }
  }

  /** A stored name that is not blank is sent as it is when left untouched. */
  lemma StoredNameKept(u: User, name: string)
    requires u.name == Some(name) && !IsBlank(name)
    ensures Clean(DefaultValues(u))["name"] == Str(name)
  {
    assert Truthy(name);
    assert DefaultValues(u)["name"] == Str(name);
  }

  /** A text field whose stored value is null is sent as undefined when left untouched. */
  lemma NullDefaultCleansToUndefined(u: User, k: string)
    requires k in TextKeys && Stored(u, k).None?
    ensures Clean(DefaultValues(u))[k] == Undefined
  {
    assert DefaultValues(u)[k] == Str("");
  }
}
