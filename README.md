# Registration screen of AuthApp, modelled in Dafny

This project models the registration screen of the AuthApp mobile client
(`app/register.js`). It covers the four field validators and the submit
handler `handleRegister`:

- the handler resets the error map;
- it records a "required" message for every empty field;
- only when every field is present, it runs the validators and records one
  message per rejected field;
- on any error it stops;
- otherwise it signs the user up, inserts a `master_users` profile row keyed
  by the new user's id, and clears the form only when the insert succeeds.

The project has three modules:

- `Validators` (`validators.dfy`): the validators as pure predicates.
  - JavaScript's `.length` counts UTF-16 code units, while a Dafny `string`
    is a sequence of Unicode scalar values. `Utf16Length` gives the
    JavaScript length, and the name and password rules are stated with it.
  - `\d` matches the ASCII digits `0`-`9` only, so the phone rule is ten
    ASCII digits.
- `Registration` (`registration.dfy`): what one submit does, as functions of
  the submitted form and of the answers of the three remote services.
  - The remote services are the duplicate-email lookup, `auth.signUp` and the
    profile insert.
  - The specification gives the resulting error map, the order in which
    keys were written, the remote requests issued and the outcome.
  - The lemmas state the properties of a submit.
- `RegisterScreen` (`register_screen.dfy`): the component as a class.
  - Each `useState` hook is a field.
  - Each functional `setErrors` update is one map update, applied in source
    order.
  - The answers of the awaited remote calls are method parameters.
  - A ghost log records every request the screen sends.
  - Each method is proved to produce exactly the state the `Registration`
    functions describe.

The length rules follow the code, which counts UTF-16 code units. A plain
character count agrees with the code on every text without surrogate pairs
(`NameRule`, `PasswordRule`). With surrogate pairs the code's count is larger,
so a name or password can pass with fewer characters (`NameCountsCodeUnits`:
three emoji are six code units long, so the name passes).

## Model

| member | source | states |
|---|---|---|
| Validators.Utf16Length | app/register.js:16 | The JavaScript length of a string: at least its number of characters, at most twice that, and zero only for the empty string |
| Validators.Utf16LengthAppend | app/register.js:16 | The JavaScript length of a concatenation is the sum of the lengths |
| Validators.Utf16LengthIsCharCount | app/register.js:15-45 | The JavaScript length used by `validateName` (line 16) and `validatePassword` (line 44) equals the character count exactly when no character needs a surrogate pair |
| Validators.NameRule | app/register.js:15-17 | `validateName`: five characters always pass; without surrogate pairs it is exactly "at least 5 characters"; a passing name is non-empty and stays passing when extended |
| Validators.PasswordRule | app/register.js:43-45 | `validatePassword`: the same, with 8 characters |
| Validators.NameCountsCodeUnits | app/register.js:16 | Three characters outside the Basic Multilingual Plane pass the 5-unit name rule |
| Validators.NameExamples | app/register.js:15-17 | "Alice" passes and "Bob" fails |
| Validators.PasswordExamples | app/register.js:43-45 | "secret123" passes and "secret" fails |
| Validators.MatchesDigitRunIff | app/register.js:40 | `^\d{n}$` matches exactly the strings of n ASCII digits |
| Validators.PhoneRule | app/register.js:38-41 | `validatePhone` holds iff the phone is exactly 10 characters, all ASCII digits; the separate length test adds nothing |
| Validators.TenDigitsPass | app/register.js:40 | "1234567890" passes |
| Validators.PhoneExamples | app/register.js:38-41 | "1234567890" passes; "123-456-78" and "12345678901" fail |
| Validators.EndsWithIffSplit | app/register.js:21 | `endsWith` holds iff the text is some prefix followed by the suffix |
| Validators.EmailDomainExamples | app/register.js:21-22 | The domain test is exact and case-sensitive: "@DawaBag.com" is refused, as is another domain |
| Validators.DomainAddressNotEmpty | app/register.js:21 | An address with the domain is at least as long as the domain, so never empty |
| Registration.EmailRule | app/register.js:19-36 | `validateEmail`: a wrong domain is refused whatever the store holds; a failed lookup is refused; a successful lookup accepts iff it found 0 rows; overall, accepted iff the address is some prefix + "@dawabag.com" and the lookup returned 0 rows |
| Registration.ErrorsAt | app/register.js:47-87 | After a submit, a field's key is present iff the field has an error, and its message is the one the field earned: "required" when empty, otherwise (form complete) the validator's message |
| Registration.ErrorKeys | app/register.js:47-87 | The error map only ever holds the keys name, email, phone and password |
| Registration.PassAt | app/register.js:52-86 | After a pass of updates in field order, a key is present iff its field was flagged, with that field's message |
| Registration.PassKeysExactly | app/register.js:52-86 | The keys of a pass are exactly the keys of the flagged fields |
| Registration.MissingKeysIffEmpty | app/register.js:51-70 | The presence checks write nothing iff every field is non-empty, which is the condition for running the validators |
| Registration.EmptyFormErrors | app/register.js:47-89 | An all-empty form gets exactly the four "required" messages, no remote call, and ends as a validation failure |
| Registration.PresenceAndValidatorErrorsExclusive | app/register.js:51-87 | With an empty field, only "required" messages appear (exactly for the empty fields) and no lookup is sent; with all present, only validator messages appear (exactly for the rejected fields); a message is "required" iff its field is empty |
| Registration.NoErrorsIffAccepted | app/register.js:47-89 | The error map is empty iff all four validators accept, so the validators alone imply every field is present |
| Registration.NoSignUpUnlessValid | app/register.js:89-95 | A form that is not accepted ends as a validation failure with no sign-up or insert (at most the lookup); an accepted form always issues sign-up with the submitted email and password |
| Registration.LookupOnlyWithDomain | app/register.js:70-78 | The email lookup is sent at most once, first, for the submitted address, and only for a complete form whose address has the domain |
| Registration.InsertOnlyAfterSignUp | app/register.js:91-107 | A profile insert comes right after the sign-up request, only when sign-up returned a user, with row id equal to that user's id and the submitted name, email, phone and password |
| Registration.SuccessIff | app/register.js:89-120 | A submit succeeds iff the validators accept, sign-up succeeds and the insert succeeds; it fails at a remote service iff the validators accept and sign-up or insert fails |
| Registration.OrphanIdentity | app/register.js:97-114 | No rollback: for an accepted form, a successful sign-up followed by a failed insert ends in a service failure after the lookup, the sign-up and the insert have all been issued |
| Registration.AcceptedFormExample | app/register.js:15-45 | The form Alice / alice@dawabag.com / 1234567890 / secret123 with an empty lookup is accepted, so the orphan case is reachable |
| Registration.EachKeyWrittenOnce | app/register.js:48-87 | Within one submit no error key is written twice, and the keys written are exactly the keys of the final error map |
| Registration.PassWritesOnce | app/register.js:52-86 | A pass writes each flagged key once and no other key |
| RegisterScreen.Register.constructor | app/register.js:7-12 | The screen opens with empty fields, no errors and the spinner off |
| RegisterScreen.Register.SetError | app/register.js:53 | A functional `setErrors` update sets one key and keeps the others |
| RegisterScreen.Register.ValidateEmail | app/register.js:19-36 | Returns `EmailAccepted`; the lookup is sent exactly when the domain matches |
| RegisterScreen.Register.CheckPresence | app/register.js:51-67 | Reports whether all fields are present, and leaves the presence pass's map and write log |
| RegisterScreen.Register.RunValidators | app/register.js:69-87 | Reports whether all validators accept, leaves the validator pass's map and write log, and sends the lookup iff the domain matches |
| RegisterScreen.Register.Validate | app/register.js:47-89 | Resets the error map, leaves `Errors` of the form whatever the map held before, and reports acceptance |
| RegisterScreen.Register.CreateAccount | app/register.js:91-120 | Sends sign-up, then the insert under the returned id; ends with the spinner off; clears the form only on success |
| RegisterScreen.Register.HandleRegister | app/register.js:47-124 | One submit: the new error map, the write log, the requests issued, the outcome, the form (cleared only on success) and the spinner (untouched on a validation failure, off otherwise) are all those of the `Registration` specification |

## Left out

- The JSX tree, styles and the link to the login screen (app/register.js:126-187) are user interface, not logic.
- The `onChangeText` setters only assign a field; they are the plain field assignments of `Register`.
- `Alert.alert`: `ServiceFailure` carries the error's message but not the alert's title. The success alert and the navigation to the login screen (app/register.js:122-123) are side effects with no state in the model.
- `console.error` in `validateEmail` only logs.
- JavaScript strings may hold a lone surrogate; a Dafny `string` of Unicode scalar values cannot, so ill-formed UTF-16 input is outside the model.
- The answer types have no path on which a call throws: `signUp` or the insert rejecting, or `user` being null (app/register.js:92-106). The handler would then throw after `setLoading(true)` and leave the spinner on; the model has no such path.
- The Supabase client and its network calls become abstract answers passed as parameters: lookup error or row count, sign-up error or user id, insert error or success.
- Asynchrony and React state batching are left out. Each submit runs to completion on the field values current when it starts, and the functional `setErrors` updates are applied in order.
- A second submit while the first is still awaiting is not modelled, because the model has no concurrency.
- The other screens and modules (app/login.js, app/user.js, app/auth.js, app/index.js and the Supabase configuration) are not part of this model.
- Structure only, not behaviour: the single `handleRegister` body is split into a validation half and an account-creation half (`Validate`, `CreateAccount`), called in sequence.
