/** What one press of the Register button is meant to do (app/register.js,
    `validateEmail` and `handleRegister`), stated as functions of the submitted
    form and of the answers the remote services give.

    The three remote calls are oracles: the duplicate lookup answers with an
    error or a row count, sign-up with an error or the new user's id, and the
    profile insert with an error or success. The screen class in module
    RegisterScreen is proved to behave as these functions say.
 */
module Registration {
  import opened Validators

  datatype Option<T> = None | Some(value: T)

  /** The four text fields of the form. */
  datatype Form = Form(name: string, email: string, phone: string, password: string)

  const EmptyForm := Form("", "", "", "")

  /** Answer of `select('email').eq('email', email)` on `master_users`. */
  datatype LookupResult = LookupFailed(message: string) | Rows(count: nat)

  /** Answer of `auth.signUp({ email, password })`. */
  datatype SignUpResult = SignUpFailed(message: string) | SignedUp(userId: string)

  /** Answer of the `master_users` insert. */
  datatype InsertResult = InsertFailed(message: string) | Inserted

  /** The row written to `master_users`. */
  datatype ProfileRow = ProfileRow(id: string, name: string, email: string, phone: string, password: string)

  /** A request sent to a remote service. */
  datatype RemoteCall =
    | LookupEmail(email: string)
    | SignUp(email: string, password: string)
    | InsertProfile(row: ProfileRow)

  /** How a submit ends: stopped by field errors, stopped by a remote error
      (whose message is shown in an alert), or registered. */
  datatype Outcome = ValidationFailure | ServiceFailure(message: string) | Success

  datatype Field = NameField | EmailField | PhoneField | PasswordField

  /** The key under which a field's message is stored in the error map. */
  function Key(f: Field): string {
    match f
    case NameField => "name"
    case EmailField => "email"
    case PhoneField => "phone"
    case PasswordField => "password"
  }

  const FieldKeys: set<string> := {"name", "email", "phone", "password"}

  function Value(form: Form, f: Field): string {
    match f
    case NameField => form.name
    case EmailField => form.email
    case PhoneField => form.phone
    case PasswordField => form.password
  }

  /** One message per field. */
  datatype Messages = Messages(name: string, email: string, phone: string, password: string) {
    function Of(f: Field): string {
      match f
      case NameField => name
      case EmailField => email
      case PhoneField => phone
      case PasswordField => password
    }
  }

  /** The messages the screen shows, word for word; defined only here. */
  const RequiredMessages := Messages(
    "Name is required.",
    "Email is required.",
    "Phone number is required.",
    "Password is required.")

  const InvalidMessages := Messages(
    "Name must be at least 5 characters long.",
    "This email is already taken or invalid. Use your_name@dawabag.com",
    "Phone number must be exactly 10 digits.",
    "Password must be at least 8 characters long.")

  /** Every field is non-empty (a JavaScript empty string is falsy). */
  predicate AllPresent(form: Form) {
    form.name != "" && form.email != "" && form.phone != "" && form.password != ""
  }

  /** The verdict of `validateEmail`: the domain matches and the lookup
      succeeded with no existing row. */
  predicate EmailAccepted(email: string, lookup: LookupResult) {
    HasEmailDomain(email) && lookup == Rows(0)
  }

  /** The duplicate lookup is issued when the validators run (every field
      present) and the address has the domain. */
  predicate LookupIssued(form: Form) {
    AllPresent(form) && HasEmailDomain(form.email)
  }

  /** One flag per field: which fields a step of the submit writes a message for. */
  datatype Flags = Flags(name: bool, email: bool, phone: bool, password: bool) {
    predicate Of(f: Field) {
      match f
      case NameField => name
      case EmailField => email
      case PhoneField => phone
      case PasswordField => password
    }
  }

  /** The fields left empty. */
  function Missing(form: Form): Flags {
    Flags(form.name == "", form.email == "", form.phone == "", form.password == "")
  }

  /** The fields whose validator rejects them. */
  function Rejected(form: Form, lookup: LookupResult): Flags {
    Flags(!ValidateName(form.name), !EmailAccepted(form.email, lookup),
          !ValidatePhone(form.phone), !ValidatePassword(form.password))
  }

  predicate FieldValid(form: Form, lookup: LookupResult, f: Field) {
    !Rejected(form, lookup).Of(f)
  }

  /** The message a field ends up with, if any: "required" when it is empty;
      otherwise, when every field is present, the validator's message if its
      validator rejects it. */
  function FieldError(form: Form, lookup: LookupResult, f: Field): Option<string> {
    if Value(form, f) == "" then Some(RequiredMessages.Of(f))
    else if AllPresent(form) && !FieldValid(form, lookup, f) then Some(InvalidMessages.Of(f))
    else None
  }

  /** One `setErrors` update, made only when the field is flagged. */
  function Mark(m: map<string, string>, f: Field, flagged: bool, message: string): map<string, string> {
    if flagged then m[Key(f) := message] else m
  }

  /** The key written by that update, appended to the log of writes. */
  function Log(keys: seq<string>, f: Field, flagged: bool): seq<string> {
    if flagged then keys + [Key(f)] else keys
  }

  /** One pass over the fields in screen order, starting from an empty map,
      giving each flagged field its message. */
  function Pass(flags: Flags, messages: Messages): map<string, string> {
    var afterName := Mark(map[], NameField, flags.name, messages.name);
    var afterEmail := Mark(afterName, EmailField, flags.email, messages.email);
    var afterPhone := Mark(afterEmail, PhoneField, flags.phone, messages.phone);
    Mark(afterPhone, PasswordField, flags.password, messages.password)
  }

  /** The keys that pass writes, in order. */
  function PassWrites(flags: Flags): seq<string> {
    Log(Log(Log(Log([], NameField, flags.name), EmailField, flags.email), PhoneField, flags.phone),
        PasswordField, flags.password)
  }

  /** The error map after a submit, built afresh whatever the map held
      before: the presence pass when some field is empty, the validator pass
      otherwise. */
  function Errors(form: Form, lookup: LookupResult): map<string, string> {
    if AllPresent(form) then Pass(Rejected(form, lookup), InvalidMessages)
    else Pass(Missing(form), RequiredMessages)
  }

  /** The keys written into the error map during one submit, in order. */
  function ErrorWrites(form: Form, lookup: LookupResult): seq<string> {
    if AllPresent(form) then PassWrites(Rejected(form, lookup)) else PassWrites(Missing(form))
  }

  /** No key occurs twice. */
  predicate Distinct(keys: seq<string>) {
    forall i, j :: 0 <= i < j < |keys| ==> keys[i] != keys[j]
  }

  /** Every validator accepts its field. */
  predicate FormAccepted(form: Form, lookup: LookupResult) {
    ValidateName(form.name) && EmailAccepted(form.email, lookup)
    && ValidatePhone(form.phone) && ValidatePassword(form.password)
  }

  /** The remote calls one submit issues, in order. */
  function RemoteCalls(form: Form, lookup: LookupResult, signUp: SignUpResult): seq<RemoteCall> {
    var lookups := if LookupIssued(form) then [LookupEmail(form.email)] else [];
    if Errors(form, lookup) != map[] then lookups else lookups + AccountCalls(form, signUp)
  }

  /** The calls of the account-creation half: sign-up, then the profile
      insert under the returned id if sign-up succeeded. */
  function AccountCalls(form: Form, signUp: SignUpResult): seq<RemoteCall> {
    [SignUp(form.email, form.password)]
    + match signUp
      case SignUpFailed(_) => []
      case SignedUp(id) => [InsertProfile(ProfileRow(id, form.name, form.email, form.phone, form.password))]
  }

  /** How one submit ends. */
  function SubmitOutcome(form: Form, lookup: LookupResult, signUp: SignUpResult, insert: InsertResult): Outcome {
    if Errors(form, lookup) != map[] then ValidationFailure else AccountOutcome(signUp, insert)
  }

  /** How the account-creation half ends: the first failure's message, or success. */
  function AccountOutcome(signUp: SignUpResult, insert: InsertResult): Outcome {
    match signUp
    case SignUpFailed(m) => ServiceFailure(m)
    case SignedUp(_) =>
      match insert
      case InsertFailed(m) => ServiceFailure(m)
      case Inserted => Success
  }

  /** Each field's message lands under that field's key. */
  lemma ErrorsAt(form: Form, lookup: LookupResult, f: Field)
    ensures Key(f) in Errors(form, lookup) <==> FieldError(form, lookup, f).Some?
    ensures Key(f) in Errors(form, lookup) ==> Errors(form, lookup)[Key(f)] == FieldError(form, lookup, f).value
  {
    if AllPresent(form) {
      PassAt(Rejected(form, lookup), InvalidMessages, f);
    } else {
      PassAt(Missing(form), RequiredMessages, f);
    }
  }

  /** Only the four field keys ever appear in the error map. */
  lemma ErrorKeys(form: Form, lookup: LookupResult)
    ensures Errors(form, lookup).Keys <= FieldKeys
  {
  }

  /** After a pass, a field has a message exactly when it is flagged, and the
      message is its own. */
  lemma PassAt(flags: Flags, messages: Messages, f: Field)
    ensures Key(f) in Pass(flags, messages) <==> flags.Of(f)
    ensures Key(f) in Pass(flags, messages) ==> Pass(flags, messages)[Key(f)] == messages.Of(f)
  {
  }

  /** The keys of a pass are exactly the keys of the flagged fields. */
  lemma PassKeysExactly(flags: Flags, messages: Messages)
    ensures forall k :: k in Pass(flags, messages) <==>
      (flags.name && k == "name") || (flags.email && k == "email")
      || (flags.phone && k == "phone") || (flags.password && k == "password")
  {
  }

  /** validateEmail: an address without the exact domain suffix is refused
      whatever the store holds; with it, the address is accepted exactly when
      the lookup succeeds and finds no row, and a failed lookup refuses it. */
  lemma EmailRule(email: string, lookup: LookupResult)
    ensures !HasEmailDomain(email) ==> !EmailAccepted(email, lookup)
    ensures HasEmailDomain(email) && lookup.LookupFailed? ==> !EmailAccepted(email, lookup)
    ensures HasEmailDomain(email) && lookup.Rows? ==> (EmailAccepted(email, lookup) <==> lookup.count == 0)
    ensures EmailAccepted(email, lookup) <==> (exists p :: email == p + EmailDomain) && lookup == Rows(0)
  {
    EndsWithIffSplit(email, EmailDomain);
  }

  /** An all-empty form gets exactly the four "required" messages, and the
      submit issues no remote call at all. */
  lemma EmptyFormErrors(lookup: LookupResult, signUp: SignUpResult, insert: InsertResult)
    ensures Errors(EmptyForm, lookup) == map[
      "name" := "Name is required.",
      "email" := "Email is required.",
      "phone" := "Phone number is required.",
      "password" := "Password is required."]
    ensures RemoteCalls(EmptyForm, lookup, signUp) == []
    ensures SubmitOutcome(EmptyForm, lookup, signUp, insert) == ValidationFailure
  {
    var e := Errors(EmptyForm, lookup);
    ErrorsAt(EmptyForm, lookup, NameField);
    ErrorsAt(EmptyForm, lookup, EmailField);
    ErrorsAt(EmptyForm, lookup, PhoneField);
    ErrorsAt(EmptyForm, lookup, PasswordField);
    assert e.Keys == FieldKeys;
  }

  /** Presence errors and validator errors never mix: when some field is
      empty, every message is a "required" one and no lookup is issued; when
      all are present, every message is the validator's. A field carries its
      "required" message exactly when it is empty. */
  lemma PresenceAndValidatorErrorsExclusive(form: Form, lookup: LookupResult, f: Field)
    ensures !AllPresent(form) ==>
      !LookupIssued(form) &&
      (Key(f) in Errors(form, lookup) <==> Value(form, f) == "") &&
      (Key(f) in Errors(form, lookup) ==> Errors(form, lookup)[Key(f)] == RequiredMessages.Of(f))
    ensures AllPresent(form) ==>
      (Key(f) in Errors(form, lookup) <==> !FieldValid(form, lookup, f)) &&
      (Key(f) in Errors(form, lookup) ==> Errors(form, lookup)[Key(f)] == InvalidMessages.Of(f))
    ensures Key(f) in Errors(form, lookup) ==>
      (Errors(form, lookup)[Key(f)] == RequiredMessages.Of(f) <==> Value(form, f) == "")
  {
    ErrorsAt(form, lookup, f);
  }

  /** The error map is empty exactly when every validator accepts its field;
      in particular the validators alone imply that no field is empty. */
  lemma NoErrorsIffAccepted(form: Form, lookup: LookupResult)
    ensures Errors(form, lookup) == map[] <==> FormAccepted(form, lookup)
  {
    NameRule(form.name, "");
    PasswordRule(form.password, "");
    DomainAddressNotEmpty(form.email);
    PhoneRule(form.phone);
    ErrorsAt(form, lookup, NameField);
    ErrorsAt(form, lookup, EmailField);
    ErrorsAt(form, lookup, PhoneField);
    ErrorsAt(form, lookup, PasswordField);
    if FormAccepted(form, lookup) {
      assert Errors(form, lookup).Keys == {};
    }
  }

  /** A submit with any field error issues neither sign-up nor insert, and
      ends as a validation failure. */
  lemma NoSignUpUnlessValid(form: Form, lookup: LookupResult, signUp: SignUpResult, insert: InsertResult)
    ensures !FormAccepted(form, lookup) ==>
      SubmitOutcome(form, lookup, signUp, insert) == ValidationFailure &&
      forall c :: c in RemoteCalls(form, lookup, signUp) ==> c.LookupEmail?
    ensures FormAccepted(form, lookup) ==>
      SignUp(form.email, form.password) in RemoteCalls(form, lookup, signUp)
  {
    NoErrorsIffAccepted(form, lookup);
  }

  /** The lookup is issued at most once, first, and only for a complete form
      whose address has the domain. */
  lemma LookupOnlyWithDomain(form: Form, lookup: LookupResult, signUp: SignUpResult)
    ensures forall i :: 0 <= i < |RemoteCalls(form, lookup, signUp)| && RemoteCalls(form, lookup, signUp)[i].LookupEmail? ==>
      i == 0 && LookupIssued(form) && RemoteCalls(form, lookup, signUp)[i].email == form.email
    ensures LookupIssued(form) ==> RemoteCalls(form, lookup, signUp)[0] == LookupEmail(form.email)
  {
  }

  /** The profile insert comes straight after a successful sign-up, keyed by
      the id sign-up returned and carrying the submitted fields. */
  lemma InsertOnlyAfterSignUp(form: Form, lookup: LookupResult, signUp: SignUpResult, i: nat)
    requires i < |RemoteCalls(form, lookup, signUp)|
    requires RemoteCalls(form, lookup, signUp)[i].InsertProfile?
    ensures 0 < i && RemoteCalls(form, lookup, signUp)[i - 1] == SignUp(form.email, form.password)
    ensures signUp == SignedUp(RemoteCalls(form, lookup, signUp)[i].row.id)
    ensures RemoteCalls(form, lookup, signUp)[i].row ==
      ProfileRow(signUp.userId, form.name, form.email, form.phone, form.password)
    ensures FormAccepted(form, lookup)
  {
    NoErrorsIffAccepted(form, lookup);
  }

  /** A submit succeeds exactly when every validator accepts, sign-up
      succeeds and the insert succeeds. */
  lemma SuccessIff(form: Form, lookup: LookupResult, signUp: SignUpResult, insert: InsertResult)
    ensures SubmitOutcome(form, lookup, signUp, insert) == Success <==>
      FormAccepted(form, lookup) && signUp.SignedUp? && insert == Inserted
    ensures SubmitOutcome(form, lookup, signUp, insert).ServiceFailure? <==>
      FormAccepted(form, lookup) && (signUp.SignUpFailed? || insert.InsertFailed?)
  {
    NoErrorsIffAccepted(form, lookup);
  }

  /** There is no rollback: when the form is accepted and sign-up succeeds
      but the insert fails, the submit ends in a service failure after sign-up
      was issued, so the auth identity exists without a profile row. */
  lemma OrphanIdentity(form: Form, lookup: LookupResult, id: string, message: string)
    requires FormAccepted(form, lookup)
    ensures SubmitOutcome(form, lookup, SignedUp(id), InsertFailed(message)) == ServiceFailure(message)
    ensures RemoteCalls(form, lookup, SignedUp(id)) == [
      LookupEmail(form.email),
      SignUp(form.email, form.password),
      InsertProfile(ProfileRow(id, form.name, form.email, form.phone, form.password))]
  {
  }

  /** A concrete form that every validator accepts when the lookup finds no
      row, so the orphaned-identity case above is reachable. */
  lemma AcceptedFormExample()
    ensures FormAccepted(Form("Alice", "alice@dawabag.com", "1234567890", "secret123"), Rows(0))
  {
    NameExamples();
    PasswordExamples();
    PhoneExamples();
    EmailDomainExamples();
  }

  /** Within one submit no key is written twice, and the keys written are
      exactly the keys of the resulting error map: each field gets at most one
      message, and a field whose "required" message is set never also gets a
      validator message. */
  lemma EachKeyWrittenOnce(form: Form, lookup: LookupResult)
    ensures Distinct(ErrorWrites(form, lookup))
    ensures forall k :: k in ErrorWrites(form, lookup) <==> k in Errors(form, lookup)
  {
    if AllPresent(form) {
      PassWritesOnce(Rejected(form, lookup));
      PassKeysExactly(Rejected(form, lookup), InvalidMessages);
    } else {
      PassWritesOnce(Missing(form));
      PassKeysExactly(Missing(form), RequiredMessages);
    }
  }

  /** A pass writes each flagged key once and nothing else. */
  lemma PassWritesOnce(flags: Flags)
    ensures Distinct(PassWrites(flags))
    ensures forall k :: k in PassWrites(flags) <==>
      (flags.name && k == "name") || (flags.email && k == "email")
      || (flags.phone && k == "phone") || (flags.password && k == "password")
  {
  }

  /** The presence pass writes nothing exactly when every field is present. */
  lemma MissingKeysIffEmpty(form: Form)
    ensures Pass(Missing(form), RequiredMessages) == map[] <==> AllPresent(form)
  {
    if !AllPresent(form) {
      if form.name == "" { PassAt(Missing(form), RequiredMessages, NameField); }
      else if form.email == "" { PassAt(Missing(form), RequiredMessages, EmailField); }
      else if form.phone == "" { PassAt(Missing(form), RequiredMessages, PhoneField); }
      else { PassAt(Missing(form), RequiredMessages, PasswordField); }
    }
  }
}
