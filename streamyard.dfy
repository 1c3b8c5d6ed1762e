/** The StreamYard client: a webinar's public information, fetched once the session holds
    the `jwtOnAir` cookie, and the registration of an attendee. The site is a parameter of
    the client; what the client changes is its cookie jar and the list of requests sent. */
module StreamYard {
  import opened Common

  /** The time zone every registration declares. */
  const TimeZone: string := "Europe/Rome"

  /** The field types the registration form is filled in for. */
  const EmailType: string := "email"
  const FirstNameType: string := "firstName"
  const LastNameType: string := "lastName"

  /** `url.split("/")[-1]`: the text after the last slash, or all of it without one. */
  function WebinarId(url: string): string
  {
    if url == [] then []
    else if url[|url| - 1] == '/' then []
    else WebinarId(url[..|url| - 1]) + [url[|url| - 1]]
  }

  /** The webinar id is the last segment of the URL: a suffix of it without a slash, either
      the whole URL or preceded by a slash. */
  lemma {:induction false} WebinarIdIsLastSegment(url: string)
    ensures var id := WebinarId(url);
      && |id| <= |url|
      && url[|url| - |id|..] == id
      && '/' !in id
      && (|id| < |url| ==> url[|url| - |id| - 1] == '/')
  {
    if url != [] && url[|url| - 1] != '/' {
      var front, c := url[..|url| - 1], url[|url| - 1];
      WebinarIdIsLastSegment(front);
      var rest := WebinarId(front);
      var start := |front| - |rest|;
      assert WebinarId(url) == rest + [c];
      assert url == front + [c];
      assert url[start..] == front[start..] + [c];
      assert '/' !in rest + [c];
      if start > 0 {
        assert url[start - 1] == front[start - 1];
      }
    }
  }

  /** A URL ending in a slash gives the empty id; one without a slash is its own id. */
  lemma WebinarIdEdges(url: string)
    ensures |url| > 0 && url[|url| - 1] == '/' ==> WebinarId(url) == []
    ensures '/' !in url ==> WebinarId(url) == url
  {
    WebinarIdIsLastSegment(url);
  }

  /** A field of the registration form: `isRequired` (its truth value), `type` and `id`,
      each None when the key is missing. */
  datatype Field = Field(isRequired: Option<bool>, kind: Option<string>, id: Option<string>)

  /** A registration definition: its `id` and its `fields.data`. */
  datatype Definition = Definition(id: Option<string>, fields: Option<seq<Field>>)

  /** The webinar information the program reads. `registrationEnabled` and `vodDeleted`
      are Some(true) exactly when the JSON value is `true` (the program tests them with
      `is True`), Some(false) for any other value and None when the key is missing. */
  datatype Info = Info(
    registrationEnabled: Option<bool>,
    vodUrl: Option<string>,
    vodDeleted: Option<bool>,
    title: Option<string>,
    vodPosterUrl: Option<string>,
    definitions: Option<seq<Definition>>)

  /** The registration payload. */
  datatype Registration = Registration(
    email: string,
    firstName: string,
    lastName: string,
    definitionId: string,
    values: map<string, string>,
    timeZone: string)

  /** The requests the client sends. */
  datatype Request = Landing(url: string) | WebinarApi(webinarId: string) | Register(webinarId: string, payload: Registration)

  /** The answer to the landing-page GET: whether its status is a success, and whether it
      sets the `jwtOnAir` cookie (the session keeps cookies whatever the status). */
  datatype LandingAnswer = LandingAnswer(ok: bool, setsJwt: bool)

  /** The remote site: the landing page of a URL; the API's information on a webinar id,
      which may differ once this client is registered for it; and whether a registration
      POST succeeds. */
  datatype Site = Site(
    landing: string -> LandingAnswer,
    api: (string, bool) -> Result<Info>,
    register: (string, Registration) -> bool)

  /** What the client object holds: whether the cookie jar has `jwtOnAir`, the webinars it
      has registered for, and the requests sent so far. */
  datatype State = State(hasJwt: bool, registered: set<string>, sent: seq<Request>)

  /** The value a required field of the given type is filled with, if the form fills it. */
  function ValueFor(kind: string, email: string, firstName: string, lastName: string): Option<string>
  {
    if kind == EmailType then Some(email)
    else if kind == FirstNameType then Some(firstName)
    else if kind == LastNameType then Some(lastName)
    else None
  }

  /** A field that gets an entry: required, and of a type the form fills. */
  predicate Filled(f: Field, email: string, firstName: string, lastName: string)
  {
    f.isRequired == Some(true) && f.kind.Some? && ValueFor(f.kind.value, email, firstName, lastName).Some?
  }

  /** Reading the field raises KeyError: its `isRequired` is missing, or, for a required
      field, its `type`, or, for a filled one, its `id`. */
  predicate FieldKeyError(f: Field, email: string, firstName: string, lastName: string)
  {
    || f.isRequired.None?
    || (f.isRequired == Some(true) && f.kind.None?)
    || (Filled(f, email, firstName, lastName) && f.id.None?)
  }

  /** One pass of the `for field in fields_data` loop over the dictionary built so far. */
  function PutField(values: map<string, string>, f: Field, email: string, firstName: string, lastName: string): Result<map<string, string>>
  {
    if FieldKeyError(f, email, firstName, lastName) then Err
    else if Filled(f, email, firstName, lastName) then
      Ok(values[f.id.value := ValueFor(f.kind.value, email, firstName, lastName).value])
    else Ok(values)
  }

  /** `fields_values` after the loop has gone over the given fields, or the KeyError. */
  function FieldValues(fields: seq<Field>, email: string, firstName: string, lastName: string): Result<map<string, string>>
  {
    if fields == [] then Ok(map[])
    else
      match FieldValues(fields[..|fields| - 1], email, firstName, lastName)
      case Err => Err
      case Ok(values) => PutField(values, fields[|fields| - 1], email, firstName, lastName)
  }

  /** The reference reading of the form, key by key: the value of the LAST filled field
      with the given id. */
  function LastValue(fields: seq<Field>, k: string, email: string, firstName: string, lastName: string): Option<string>
  {
    if fields == [] then None
    else
      var f := fields[|fields| - 1];
      if Filled(f, email, firstName, lastName) && f.id == Some(k) then ValueFor(f.kind.value, email, firstName, lastName)
      else LastValue(fields[..|fields| - 1], k, email, firstName, lastName)
  }

  /** The dictionary holds exactly the ids of filled required fields, a later field with
      the same id overwriting an earlier one; the loop raises exactly when some field has a
      missing key. */
  lemma {:induction false} FieldValuesByKey(fields: seq<Field>, email: string, firstName: string, lastName: string)
    ensures FieldValues(fields, email, firstName, lastName).Err? <==>
      exists i :: 0 <= i < |fields| && FieldKeyError(fields[i], email, firstName, lastName)
    ensures FieldValues(fields, email, firstName, lastName).Ok? ==>
      var values := FieldValues(fields, email, firstName, lastName).value;
      forall k :: (k in values <==> LastValue(fields, k, email, firstName, lastName).Some?)
        && (k in values ==> values[k] == LastValue(fields, k, email, firstName, lastName).value)
  {
    if fields != [] {
      var front := fields[..|fields| - 1];
      FieldValuesByKey(front, email, firstName, lastName);
      if exists i :: 0 <= i < |front| && FieldKeyError(front[i], email, firstName, lastName) {
        var i :| 0 <= i < |front| && FieldKeyError(front[i], email, firstName, lastName);
        assert fields[i] == front[i];
      }
      if exists i :: 0 <= i < |fields| && FieldKeyError(fields[i], email, firstName, lastName) {
        var i :| 0 <= i < |fields| && FieldKeyError(fields[i], email, firstName, lastName);
        if i < |front| {
          assert front[i] == fields[i];
        }
      }
    }
  }

  /** Only required fields of the three filled types get an entry. */
  lemma {:induction false} LastValueOnlyFilled(fields: seq<Field>, k: string, email: string, firstName: string, lastName: string)
    ensures LastValue(fields, k, email, firstName, lastName).Some? <==>
      exists i :: 0 <= i < |fields| && Filled(fields[i], email, firstName, lastName) && fields[i].id == Some(k)
  {
    if fields != [] {
      var front := fields[..|fields| - 1];
      LastValueOnlyFilled(front, k, email, firstName, lastName);
      if exists i :: 0 <= i < |front| && Filled(front[i], email, firstName, lastName) && front[i].id == Some(k) {
        var i :| 0 <= i < |front| && Filled(front[i], email, firstName, lastName) && front[i].id == Some(k);
        assert fields[i] == front[i];
      }
      if exists i :: 0 <= i < |fields| && Filled(fields[i], email, firstName, lastName) && fields[i].id == Some(k) {
        var i :| 0 <= i < |fields| && Filled(fields[i], email, firstName, lastName) && fields[i].id == Some(k);
        if i < |front| {
          assert front[i] == fields[i];
        }
      }
    }
  }

  /** The payload `register_webinar` posts: the first definition's id and the values of its
      fields, with the attendee's own details at the top level; a missing key or an empty
      definition list raises before anything is sent. */
  function BuildRegistration(data: Info, email: string, firstName: string, lastName: string): Result<Registration>
  {
    if data.definitions.None? || data.definitions.value == [] then Err
    else
      var d := data.definitions.value[0];
      if d.id.None? || d.fields.None? then Err
      else
        match FieldValues(d.fields.value, email, firstName, lastName)
        case Err => Err
        case Ok(values) => Ok(Registration(email, firstName, lastName, d.id.value, values, TimeZone))
  }

  /** The payload's top-level details are the arguments whatever the form says, its time
      zone is fixed, only the first definition is read, and its values are the form's. */
  lemma RegistrationUsesFirstDefinition(data: Info, email: string, firstName: string, lastName: string)
    requires BuildRegistration(data, email, firstName, lastName).Ok?
    ensures var p := BuildRegistration(data, email, firstName, lastName).value;
      && data.definitions.Some? && |data.definitions.value| > 0
      && var d := data.definitions.value[0];
      && p.email == email && p.firstName == firstName && p.lastName == lastName
      && p.timeZone == "Europe/Rome"
      && d.id == Some(p.definitionId)
      && d.fields.Some? && FieldValues(d.fields.value, email, firstName, lastName) == Ok(p.values)
  {
  }

  /** Registering depends on the first definition alone: later definitions are never read. */
  lemma RegistrationIgnoresLaterDefinitions(data: Info, more: seq<Definition>, email: string, firstName: string, lastName: string)
    requires data.definitions.Some? && |data.definitions.value| > 0
    ensures BuildRegistration(data.(definitions := Some(data.definitions.value[..1] + more)), email, firstName, lastName)
         == BuildRegistration(data, email, firstName, lastName)
  {
    assert (data.definitions.value[..1] + more)[0] == data.definitions.value[0];
  }

  /** The client after a call, and the information returned or the exception. */
  datatype Fetched = Fetched(state: State, info: Result<Info>)

  /** What `get_webinar_info` does: the landing GET when the cookie is absent (its cookies
      are kept; an error status raises), then the API GET. */
  function InfoSpec(site: Site, s: State, url: string): Fetched
  {
    var id := WebinarId(url);
    if !s.hasJwt then
      var answer := site.landing(url);
      var s1 := s.(hasJwt := answer.setsJwt, sent := s.sent + [Landing(url)]);
      if !answer.ok then Fetched(s1, Err)
      else Fetched(s1.(sent := s1.sent + [WebinarApi(id)]), site.api(id, id in s.registered))
    else Fetched(s.(sent := s.sent + [WebinarApi(id)]), site.api(id, id in s.registered))
  }

  /** The landing page is requested exactly when the cookie is absent; the API is requested
      unless that landing request raised; the cookie, once held, stays; nothing else
      changes. */
  lemma InfoRequests(site: Site, s: State, url: string)
    ensures var f := InfoSpec(site, s, url);
      var id := WebinarId(url);
      && f.state.registered == s.registered
      && (s.hasJwt ==> f.state.hasJwt && f.state.sent == s.sent + [WebinarApi(id)])
      && (!s.hasJwt && site.landing(url).ok ==> f.state.sent == s.sent + [Landing(url), WebinarApi(id)])
      && (!s.hasJwt && !site.landing(url).ok ==> f.state.sent == s.sent + [Landing(url)] && f.info.Err?)
      && (f.info.Ok? ==> f.info == site.api(id, id in s.registered))
  {
  }

  /** The client after a registration, and whether it returned normally. */
  datatype Posted = Posted(state: State, ok: bool)

  /** What `register_webinar` does: builds the payload (a missing key raises before any
      request) and posts it; a successful post registers the client for the webinar. */
  function RegisterSpec(site: Site, s: State, url: string, data: Info, email: string, firstName: string, lastName: string): Posted
  {
    var id := WebinarId(url);
    match BuildRegistration(data, email, firstName, lastName)
    case Err => Posted(s, false)
    case Ok(p) =>
      var ok := site.register(id, p);
      Posted(s.(sent := s.sent + [Register(id, p)], registered := if ok then s.registered + {id} else s.registered), ok)
  }

  /** The `StreamYard` client object. */
  class Client {
    const site: Site
    var hasJwt: bool
    var registered: set<string>
    var sent: seq<Request>

    function Snap(): State
      reads this
    {
      State(hasJwt, registered, sent)
    }

    constructor (site: Site)
      ensures this.site == site && Snap() == State(false, {}, [])
    {
      this.site := site;
      hasJwt := false;
      registered := {};
      sent := [];
    }

    /** `get_webinar_info`. */
    method GetWebinarInfo(url: string) returns (r: Result<Info>)
      modifies this
      ensures Snap() == InfoSpec(site, old(Snap()), url).state
      ensures r == InfoSpec(site, old(Snap()), url).info
    {
      var webinarId := WebinarId(url);
      if !hasJwt {
        var answer := site.landing(url);
        sent := sent + [Landing(url)];
        hasJwt := answer.setsJwt;
        if !answer.ok {
          return Err;
        }
      }
      sent := sent + [WebinarApi(webinarId)];
      r := site.api(webinarId, webinarId in registered);
    }

    /** `register_webinar`: fills `fields_values` from the first definition's fields, then
      posts the payload; a missing key or an error status raises. */
    method RegisterWebinar(url: string, data: Info, email: string, firstName: string, lastName: string) returns (ok: bool)
      modifies this
      ensures Snap() == RegisterSpec(site, old(Snap()), url, data, email, firstName, lastName).state
      ensures ok == RegisterSpec(site, old(Snap()), url, data, email, firstName, lastName).ok
    {
      var webinarId := WebinarId(url);
      if data.definitions.None? || data.definitions.value == [] {
        return false;
      }
      var definition := data.definitions.value[0];
      if definition.id.None? || definition.fields.None? {
        return false;
      }
      var fieldsId := definition.id.value;
      var fieldsData := definition.fields.value;
      var fieldsValues: map<string, string> := map[];
      var i := 0;
      while i < |fieldsData|
        invariant 0 <= i <= |fieldsData|
        invariant FieldValues(fieldsData[..i], email, firstName, lastName) == Ok(fieldsValues)
      {
        var field := fieldsData[i];
        assert fieldsData[..i + 1][..i] == fieldsData[..i];
        if field.isRequired.None? {
          assert FieldValues(fieldsData[..i + 1], email, firstName, lastName).Err?;
          PrefixErrStays(fieldsData, i + 1, email, firstName, lastName);
          return false;
        }
        if field.isRequired.value {
          if field.kind.None? {
            assert FieldValues(fieldsData[..i + 1], email, firstName, lastName).Err?;
            PrefixErrStays(fieldsData, i + 1, email, firstName, lastName);
            return false;
          }
          var value := ValueFor(field.kind.value, email, firstName, lastName);
          if value.Some? {
            if field.id.None? {
              assert FieldValues(fieldsData[..i + 1], email, firstName, lastName).Err?;
              PrefixErrStays(fieldsData, i + 1, email, firstName, lastName);
              return false;
            }
            fieldsValues := fieldsValues[field.id.value := value.value];
          }
        }
        i := i + 1;
      }
      assert fieldsData[..i] == fieldsData;
      var payload := Registration(email, firstName, lastName, fieldsId, fieldsValues, TimeZone);
      sent := sent + [Register(webinarId, payload)];
      ok := site.register(webinarId, payload);
      if ok {
        registered := registered + {webinarId};
      }
    }
  }

  /** Once the loop over the fields has raised, the whole loop raises. */
  lemma {:induction false} PrefixErrStays(fields: seq<Field>, i: nat, email: string, firstName: string, lastName: string)
    requires i <= |fields|
    requires FieldValues(fields[..i], email, firstName, lastName).Err?
    ensures FieldValues(fields, email, firstName, lastName).Err?
    decreases |fields| - i
  {
    if i < |fields| {
      assert fields[..i + 1][..i] == fields[..i];
      PrefixErrStays(fields, i + 1, email, firstName, lastName);
    } else {
      assert fields[..i] == fields;
    }
  }
}
