/** The create/edit form: the validation rules of its four fields, the values it starts from,
    and where a submission goes. */
module UserFormPage {
  import opened JsValues
  import opened UsersSlice

  const MaxNameLength: int := 50

  /** The form's values, all strings. */
  datatype FormValues = FormValues(email: string, firstName: string, lastName: string, avatar: string)

  datatype NameField = FirstName | LastName

  /** The rules a value can break. */
  datatype Violation =
    | EmailRequired
    | EmailInvalid
    | NameRequired(field: NameField)
    | NameTooLong(field: NameField)
    | NameCharset(field: NameField)
    | AvatarRequired
    | AvatarInvalid

  function Label(f: NameField): string {
    match f
    case FirstName => "First name"
    case LastName => "Last name"
  }

  /** The message shown for each broken rule. */
  function Message(v: Violation): string {
    match v
    case EmailRequired => "Email is required"
    case EmailInvalid => "Invalid email address"
    case NameRequired(f) => Label(f) + " is required"
    case NameTooLong(f) => Label(f) + " cannot be more than 50 characters"
    case NameCharset(f) => Label(f) + " should not contain special characters or numbers"
    case AvatarRequired => "Profile Image Link is required"
    case AvatarInvalid => "Invalid URL"
  }

  /** Each name-rule message begins with the label of the field it is about. */
  lemma NameMessagesNameTheirField(v: Violation)
    requires v.NameRequired? || v.NameTooLong? || v.NameCharset?
    ensures |Label(v.field)| <= |Message(v)| && Message(v)[..|Label(v.field)|] == Label(v.field)
  {
    var l := Label(v.field);
    var rest := if v.NameRequired? then " is required"
      else if v.NameTooLong? then " cannot be more than 50 characters"
      else " should not contain special characters or numbers";
    assert Message(v) == l + rest;
    assert (l + rest)[..|l|] == l;
  }

  /** Different broken rules show different messages. */
  lemma MessagesTellViolationsApart(v1: Violation, v2: Violation)
    requires Message(v1) == Message(v2)
    ensures v1 == v2
  {
    // The only two messages of equal length differ in their first character.
    assert Message(EmailInvalid)[0] == 'I' && Message(NameRequired(LastName))[0] == 'L';
  }

  /** `[a-zA-Z\s]` */
  predicate NameChar(c: char) {
    ('a' <= c <= 'z') || ('A' <= c <= 'Z') || IsJsWhitespace(c)
  }

  /** `/^[a-zA-Z\s]*$/.test(s)`: the starred class consumed one character at a time. */
  function MatchesNamePattern(s: string): bool
    decreases |s|
  {
    s == [] || (NameChar(s[0]) && MatchesNamePattern(s[1..]))
  }

  /** The pattern accepts exactly the strings made of letters and white space. */
  lemma {:induction false} NamePatternMeansNameChars(s: string)
    ensures MatchesNamePattern(s) <==> forall i :: 0 <= i < |s| ==> NameChar(s[i])
    decreases |s|
  {
    if s != [] {
      NamePatternMeansNameChars(s[1..]);
      assert forall i :: 1 <= i < |s| ==> s[i] == s[1..][i - 1];
    }
  }

  /** The rules of `first_name` and `last_name`: required, at most 50 characters, and only
      letters and white space. */
  function NameViolations(f: NameField, s: string): (v: set<Violation>)
    ensures NameRequired(f) in v <==> s == ""
    ensures NameTooLong(f) in v <==> |s| > MaxNameLength
    ensures NameCharset(f) in v <==> exists i :: 0 <= i < |s| && !NameChar(s[i])
    ensures forall x :: x in v ==> x.NameRequired? || x.NameTooLong? || x.NameCharset?
    ensures forall x :: x in v ==> x.field == f
  {
    NamePatternMeansNameChars(s);
    (if s == "" then {NameRequired(f)} else {})
    + (if |s| > MaxNameLength then {NameTooLong(f)} else {})
    + (if !MatchesNamePattern(s) then {NameCharset(f)} else {})
  }

  /** A value that passes the name rules. */
  predicate ValidName(s: string) {
    s != "" && |s| <= MaxNameLength && forall i :: 0 <= i < |s| ==> NameChar(s[i])
  }

  /** The whole schema. Whether the email is well formed and the avatar a URL is decided by the
      validation library and arrives as the two flags; like the library, those tests pass on an
      empty value, which only `required` rejects. */
  function Validate(values: FormValues, emailWellFormed: bool, avatarIsUrl: bool): (v: set<Violation>)
    ensures EmailRequired in v <==> values.email == ""
    ensures EmailInvalid in v <==> values.email != "" && !emailWellFormed
    ensures AvatarRequired in v <==> values.avatar == ""
    ensures AvatarInvalid in v <==> values.avatar != "" && !avatarIsUrl
    ensures v - {EmailRequired, EmailInvalid, AvatarRequired, AvatarInvalid}
      == NameViolations(FirstName, values.firstName) + NameViolations(LastName, values.lastName)
    ensures v == {} <==>
      && values.email != "" && emailWellFormed
      && ValidName(values.firstName) && ValidName(values.lastName)
      && values.avatar != "" && avatarIsUrl
  {
    var first := NameViolations(FirstName, values.firstName);
    var last := NameViolations(LastName, values.lastName);
    var fixed := (if values.email == "" then {EmailRequired} else {})
      + (if values.email != "" && !emailWellFormed then {EmailInvalid} else {})
      + (if values.avatar == "" then {AvatarRequired} else {})
      + (if values.avatar != "" && !avatarIsUrl then {AvatarInvalid} else {});
    var v := fixed + (first + last);
    assert v - {EmailRequired, EmailInvalid, AvatarRequired, AvatarInvalid} == first + last;
    assert ValidName(values.firstName) <==> first == {} by {
      if first != {} { var x :| x in first; }
    }
    assert ValidName(values.lastName) <==> last == {} by {
      if last != {} { var x :| x in last; }
    }
    v
  }

  /** `selectedUser.field || ""` */
  function FieldOrEmpty(u: User, field: string): string {
    if field in u then u[field] else ""
  }

  /** `formInitialValues`: the selected record's four fields, "" where one is missing; all ""
      when nothing is selected. */
  function FormInitialValues(selected: Option<User>): (v: FormValues)
    ensures selected.None? ==> v == FormValues("", "", "", "")
    ensures selected.Some? ==>
      (&& v.email == FieldOrEmpty(selected.value, "email")
       && v.firstName == FieldOrEmpty(selected.value, "first_name")
       && v.lastName == FieldOrEmpty(selected.value, "last_name")
       && v.avatar == FieldOrEmpty(selected.value, "avatar"))
  {
    match selected
    case None => FormValues("", "", "", "")
    case Some(u) =>
      FormValues(FieldOrEmpty(u, "email"), FieldOrEmpty(u, "first_name"),
                 FieldOrEmpty(u, "last_name"), FieldOrEmpty(u, "avatar"))
  }

  /** The form values as the JSON object that is sent. */
  function Payload(values: FormValues): User {
    map["email" := values.email, "first_name" := values.firstName,
        "last_name" := values.lastName, "avatar" := values.avatar]
  }

  /** A record saved from the form, merged with whatever the server adds, fills the form with
      the same values again. */
  lemma InitialValuesOfSaved(values: FormValues, server: User)
    requires forall k :: k in server ==> k !in Payload(values)
    ensures FormInitialValues(Some(Payload(values) + server)) == values
  {
    var u := Payload(values) + server;
    assert "email" in u && u["email"] == values.email;
    assert "first_name" in u && u["first_name"] == values.firstName;
    assert "last_name" in u && u["last_name"] == values.lastName;
    assert "avatar" in u && u["avatar"] == values.avatar;
  }

  /** What a submission dispatches. */
  datatype Intent = Edit(id: string, payload: User) | Add(payload: User)

  /** With an id in the route the form edits that record; without one it creates a record. */
  function SubmitIntent(routeId: Option<string>, values: FormValues): (i: Intent)
    ensures i.Edit? <==> Truthy(routeId)
    ensures i.Edit? ==> i.id == routeId.value
    ensures i.payload == Payload(values)
  {
    if Truthy(routeId) then Edit(routeId.value, Payload(values)) else Add(Payload(values))
  }

  /** `handleSubmit`: dispatch the edit or the add and wait for it; on success go to /users,
      on failure stay; in both cases the form stops submitting. */
  method HandleSubmit(store: UsersStore, routeId: Option<string>, values: FormValues, response: Outcome)
    returns (intent: Intent, navigateTo: Option<string>, submitting: bool)
    requires store.Valid()
    modifies store`isProcessingAction, store`error, store`entities, store`ids
    ensures store.Valid()
    ensures intent == SubmitIntent(routeId, values)
    ensures !submitting && !store.isProcessingAction
    ensures navigateTo == if response.Succeeded? then Some("/users") else None
    ensures response.Succeeded? && intent.Edit? ==>
      && store.ids == old(store.ids)
      && store.entities == if intent.id in old(store.entities)
                           then old(store.entities)[intent.id := old(store.entities)[intent.id] + response.body]
                           else old(store.entities)
    ensures response.Succeeded? && intent.Add? ==>
      && store.ids == [IdOf(response.body)] + old(store.ids)
      && store.entities == old(store.entities)[IdOf(response.body) := response.body]
    ensures response.Succeeded? ==> store.error == None
    ensures response.Failed? ==>
      && store.ids == old(store.ids) && store.entities == old(store.entities)
      && store.error == Some(Or(response.message, if intent.Edit? then EditUserFallback else AddUserFallback))
  {
    intent := SubmitIntent(routeId, values);
    navigateTo := None;
    match intent {
      case Edit(id, _) =>
        store.EditUserPending();
        match response {
          case Succeeded(body) => store.EditUserFulfilled(id, body);
          case Failed(message) => store.EditUserRejected(message);
        }
      case Add(_) =>
        store.AddUserPending();
        match response {
          case Succeeded(body) => store.AddUserFulfilled(body);
          case Failed(message) => store.AddUserRejected(message);
        }
    }
    if response.Succeeded? {
      navigateTo := Some("/users");
    }
    submitting := false;
  }
}
