/** The registration screen's state and its submit handler (app/register.js).

    The component's `useState` hooks become the fields of `Register`; each
    `setErrors(prev => ({ ...prev, key: message }))` is one map update, applied
    in order. The answers of the three remote services are parameters of the
    methods that await them, and the ghost field `calls` records every request
    the screen has sent, so that what was and was not sent can be stated.
 */
module RegisterScreen {
  import opened Validators
  import opened Registration

  class Register {
    var name: string
    var email: string
    var phone: string
    var password: string
    var loading: bool
    var errors: map<string, string>

    /** Every remote request issued by this screen, oldest first. */
    ghost var calls: seq<RemoteCall>
    /** The error keys written during the latest submit, in order. */
    ghost var errorWrites: seq<string>

    /** The form as currently typed. */
    function CurrentForm(): Form
      reads this`name, this`email, this`phone, this`password
    {
      Form(name, email, phone, password)
    }

    /** The screen opens with an empty form, no errors and nothing sent. */
    constructor ()
      ensures CurrentForm() == EmptyForm && errors == map[] && !loading
      ensures calls == [] && errorWrites == []
    {
      name, email, phone, password := "", "", "", "";
      loading := false;
      errors := map[];
      calls := [];
      errorWrites := [];
    }

    /** One functional `setErrors` update: the key gets the message, the other
        keys keep theirs. */
    method SetError(key: string, message: string)
      modifies this`errors, this`errorWrites
      ensures errors == old(errors)[key := message]
      ensures errorWrites == old(errorWrites) + [key]
    {
      errors := errors[key := message];
      errorWrites := errorWrites + [key];
    }

    /** `validateEmail`: a wrong domain is refused without any request;
        otherwise the duplicate lookup is sent and its answer decides. */
    method ValidateEmail(address: string, lookup: LookupResult) returns (ok: bool)
      modifies this`calls
      ensures ok == EmailAccepted(address, lookup)
      ensures calls == old(calls) + if HasEmailDomain(address) then [LookupEmail(address)] else []
    {
      if !EndsWith(address, EmailDomain) {
        return false;
      }
      calls := calls + [LookupEmail(address)];
      match lookup {
        case LookupFailed(_) => ok := false;
        case Rows(count) => ok := count == 0;
      }
    }

    /** The "Check for empty fields" step: one "required" message per empty
        field, written in field order. */
    method CheckPresence() returns (present: bool)
      requires errors == map[] && errorWrites == []
      modifies this`errors, this`errorWrites
      ensures present == AllPresent(CurrentForm())
      ensures errors == Pass(Missing(CurrentForm()), RequiredMessages)
      ensures errorWrites == PassWrites(Missing(CurrentForm()))
    {
      present := true;
      if name == "" {
        SetError("name", RequiredMessages.name);
        present := false;
      }
      if email == "" {
        SetError("email", RequiredMessages.email);
        present := false;
      }
      if phone == "" {
        SetError("phone", RequiredMessages.phone);
        present := false;
      }
      if password == "" {
        SetError("password", RequiredMessages.password);
        present := false;
      }
    }

    /** The "Validate fields" step, run on a complete form: one validator
        message per rejected field, written in field order; the duplicate
        lookup is sent only for an address with the domain. */
    method RunValidators(lookup: LookupResult) returns (valid: bool)
      requires errors == map[] && errorWrites == []
      modifies this`errors, this`errorWrites, this`calls
      ensures valid == FormAccepted(CurrentForm(), lookup)
      ensures errors == Pass(Rejected(CurrentForm(), lookup), InvalidMessages)
      ensures errorWrites == PassWrites(Rejected(CurrentForm(), lookup))
      ensures calls == old(calls) + if HasEmailDomain(email) then [LookupEmail(email)] else []
    {
      valid := true;
      ghost var rejected := Rejected(CurrentForm(), lookup);
      if !ValidateName(name) {
        SetError("name", InvalidMessages.name);
        valid := false;
      }
      ghost var afterName := errors;
      assert afterName == Mark(map[], NameField, rejected.name, InvalidMessages.name);
      var emailOk := ValidateEmail(email, lookup);
      if !emailOk {
        SetError("email", InvalidMessages.email);
        valid := false;
      }
      ghost var afterEmail := errors;
      assert afterEmail == Mark(afterName, EmailField, rejected.email, InvalidMessages.email);
      if !ValidatePhone(phone) {
        SetError("phone", InvalidMessages.phone);
        valid := false;
      }
      ghost var afterPhone := errors;
      assert afterPhone == Mark(afterEmail, PhoneField, rejected.phone, InvalidMessages.phone);
      if !ValidatePassword(password) {
        SetError("password", InvalidMessages.password);
        valid := false;
      }
    }

    /** The validation half of `handleRegister`: reset the error map, check
        presence, and run the validators only on a complete form. */
    method Validate(lookup: LookupResult) returns (isValid: bool)
      modifies this`errors, this`errorWrites, this`calls
      ensures isValid == FormAccepted(CurrentForm(), lookup)
      ensures errors == Errors(CurrentForm(), lookup)
      ensures errorWrites == ErrorWrites(CurrentForm(), lookup)
      ensures calls == old(calls) + if LookupIssued(CurrentForm()) then [LookupEmail(email)] else []
    {
      errors := map[];
      errorWrites := [];
      isValid := CheckPresence();
      MissingKeysIffEmpty(CurrentForm());
      if isValid {
        isValid := RunValidators(lookup);
      }
      NoErrorsIffAccepted(CurrentForm(), lookup);
    }

    /** `handleRegister`: rebuild the error map from the form, stop on any
        error, otherwise sign up, then insert the profile row under the new
        user's id, and clear the form only if the insert succeeded. */
    method HandleRegister(lookup: LookupResult, signUp: SignUpResult, insert: InsertResult)
      returns (outcome: Outcome)
      modifies this
      ensures errors == Errors(old(CurrentForm()), lookup)
      ensures errorWrites == ErrorWrites(old(CurrentForm()), lookup)
      ensures calls == old(calls) + RemoteCalls(old(CurrentForm()), lookup, signUp)
      ensures outcome == SubmitOutcome(old(CurrentForm()), lookup, signUp, insert)
      ensures CurrentForm() == if outcome == Success then EmptyForm else old(CurrentForm())
      ensures loading == if outcome == ValidationFailure then old(loading) else false
    {
      ghost var form := CurrentForm();
      var isValid := Validate(lookup);
      NoErrorsIffAccepted(form, lookup);
      if !isValid {
        return ValidationFailure;
      }
      outcome := CreateAccount(signUp, insert);
    }

    /** The account-creation half of `handleRegister`, reached only with a
        valid form: the spinner is on while sign-up and insert run and off
        once either fails or both succeed; the form is cleared only after
        the insert succeeds. */
    method CreateAccount(signUp: SignUpResult, insert: InsertResult) returns (outcome: Outcome)
      modifies this`name, this`email, this`phone, this`password, this`loading, this`calls
      ensures calls == old(calls) + AccountCalls(old(CurrentForm()), signUp)
      ensures outcome == AccountOutcome(signUp, insert)
      ensures CurrentForm() == if outcome == Success then EmptyForm else old(CurrentForm())
      ensures !loading
    {
      loading := true;
      calls := calls + [SignUp(email, password)];
      match signUp {
        case SignUpFailed(message) =>
          loading := false;
          return ServiceFailure(message);
        case SignedUp(id) =>
          calls := calls + [InsertProfile(ProfileRow(id, name, email, phone, password))];
      }
      loading := false;

      if insert.InsertFailed? {
        return ServiceFailure(insert.message);
      }

      name, email, phone, password := "", "", "", "";
      outcome := Success;
    }
  }
}
