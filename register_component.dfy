/**
 * The registration form (`RegisterComponentBase`): three validators run in a
 * fixed order and stop at the first failure, each writing its field's
 * validation message and CSS class; a valid form is sent to the user API and
 * the server's `InsertUserResult` decides the outcome fields.
 *
 * A C# `null` username, password or confirmation is the empty string here:
 * the component only tests them with `IsNullOrEmpty` before they are used,
 * and an empty one never passes. The email address goes into the request
 * unvalidated, so it keeps its `null` (`None`). C# string lengths count
 * UTF-16 code units, which `Utf16Length` gives. The credential digest (a
 * foreign cryptographic call followed by Base64) is the parameter
 * `authPassword`, and the user API call is the parameter `userService`.
 */
module WebShared {
  import opened Monads

  datatype RegistrationInfo = RegistrationInfo(
    username: string,
    password: string,
    passwordConfirm: string,
    emailAddress: Maybe<string>)

  datatype RegisterUserRequest = RegisterUserRequest(username: string, password: string, emailAddress: Maybe<string>)

  /** The server's verdict; `OtherResult` stands for any value the table does not list. */
  datatype InsertUserResult =
    | Success
    | InvalidUsername
    | InvalidPassword
    | InvalidEmailAddress
    | UsernameTaken
    | EmailTaken
    | OtherResult(code: int)

  const IsInvalid: string := "is-invalid"
  const MaxUsernameLength: nat := 32

  const MissingUsername: string := "Please choose a username"
  const UsernameTooLong: string := "Username exceeds 32-character limit"
  const UsernameContainsSpaces: string := "Username may not contain spaces"
  const MissingPassword: string := "Please enter a password"
  const MissingPasswordConfirm: string := "Please confirm your password"
  const PasswordConfirmDoesNotMatch: string := "Passwords do not match"
  const UnknownError: string := "???"

  /** `string.IsNullOrEmpty` of a nullable string. */
  predicate IsNullOrEmpty(s: Maybe<string>) {
    s.None? || |s.value| == 0
  }

  /** UTF-16 code units of one character: two for a character outside the Basic Multilingual Plane. */
  function CodeUnits(c: char): (n: nat)
    ensures 1 <= n <= 2
  {
    if c as int > 0xFFFF then 2 else 1
  }

  /** `string.Length`: the number of UTF-16 code units, between one and two per character. */
  function Utf16Length(s: string): (n: nat)
    ensures |s| <= n <= 2 * |s|
    ensures n == 0 <==> |s| == 0
  {
    if s == [] then 0 else CodeUnits(s[0]) + Utf16Length(s[1..])
  }

  /** Characters outside the Basic Multilingual Plane count twice. */
  lemma {:induction false} Utf16LengthOfWide(s: string)
    requires forall i :: 0 <= i < |s| ==> s[i] as int > 0xFFFF
    ensures Utf16Length(s) == 2 * |s|
  {
    if s != [] {
      Utf16LengthOfWide(s[1..]);
    }
  }

  // -----------------------------------------------------------------------
  // The rules, stated independently of the order in which they are checked.
  // -----------------------------------------------------------------------

  predicate UsernameAcceptable(username: string) {
    0 < |username| && Utf16Length(username) <= MaxUsernameLength && ' ' !in username
  }

  predicate PasswordAcceptable(password: string) {
    |password| > 0
  }

  predicate ConfirmationAcceptable(password: string, confirm: string) {
    |confirm| > 0 && confirm == password
  }

  predicate FormAcceptable(info: RegistrationInfo) {
    UsernameAcceptable(info.username) &&
    PasswordAcceptable(info.password) &&
    ConfirmationAcceptable(info.password, info.passwordConfirm)
  }

  // -----------------------------------------------------------------------
  // The message each validator reports, in the source's order of checks.
  // -----------------------------------------------------------------------

  /** Emptiness is reported first, then length, then spaces. */
  function UsernameError(username: string): (r: Maybe<string>)
    ensures r.None? <==> UsernameAcceptable(username)
    ensures r == Some(MissingUsername) <==> |username| == 0
    ensures r == Some(UsernameTooLong) <==> Utf16Length(username) > MaxUsernameLength
    ensures r == Some(UsernameContainsSpaces) <==>
              0 < |username| && Utf16Length(username) <= MaxUsernameLength && ' ' in username
  {
    if |username| == 0 then Some(MissingUsername)
    else if Utf16Length(username) > MaxUsernameLength then Some(UsernameTooLong)
    else if ' ' in username then Some(UsernameContainsSpaces)
    else None
  }

  function PasswordError(password: string): (r: Maybe<string>)
    ensures r.None? <==> PasswordAcceptable(password)
    ensures r.Some? ==> r.value == MissingPassword
  {
    if |password| == 0 then Some(MissingPassword) else None
  }

  /** An empty confirmation is reported before a mismatch. */
  function ConfirmationError(password: string, confirm: string): (r: Maybe<string>)
    ensures r.None? <==> ConfirmationAcceptable(password, confirm)
    ensures r == Some(MissingPasswordConfirm) <==> |confirm| == 0
    ensures r == Some(PasswordConfirmDoesNotMatch) <==> |confirm| > 0 && confirm != password
  {
    if |confirm| == 0 then Some(MissingPasswordConfirm)
    else if confirm != password then Some(PasswordConfirmDoesNotMatch)
    else None
  }

  /**
   * Seventeen characters outside the Basic Multilingual Plane are 34 UTF-16
   * code units, so such a username is too long although it has only 17
   * characters.
   */
  lemma WideUsernameTooLong(username: string)
    requires |username| == 17 && forall i :: 0 <= i < |username| ==> username[i] == '\U{1F600}'
    ensures UsernameError(username) == Some(UsernameTooLong)
  {
    Utf16LengthOfWide(username);
  }

  /** A field's validation message and CSS class. */
  datatype FieldFeedback = FieldFeedback(message: string, invalidClass: string)

  /**
   * What a validator leaves in its field: on failure the message and the
   * invalid class; on success the class is reset and the message is left
   * as it was.
   */
  function Feedback(before: FieldFeedback, error: Maybe<string>): (after: FieldFeedback)
    ensures error.Some? ==> after.invalidClass == IsInvalid && after.message == error.value
    ensures error.None? ==> after.invalidClass == "" && after.message == before.message
  {
    match error
    case Some(message) => FieldFeedback(message, IsInvalid)
    case None => before.(invalidClass := "")
  }

  /** The text shown for a failed registration; only asked for a result other than `Success`. */
  function ErrorText(result: InsertUserResult): (text: string)
    requires result != Success
    ensures text == UnknownError <==> result.OtherResult?
  {
    match result
    case InvalidUsername => "Invalid username"
    case InvalidPassword => "Invalid password"
    case InvalidEmailAddress => "Invalid email address"
    case UsernameTaken => "Username is already taken"
    case EmailTaken => "Email address is associated with an existing account"
    case OtherResult(_) => UnknownError
  }

  /** Distinct listed results are shown with distinct texts. */
  lemma ErrorTextDistinguishes(a: InsertUserResult, b: InsertUserResult)
    requires a != Success && b != Success && !a.OtherResult? && !b.OtherResult?
    requires ErrorText(a) == ErrorText(b)
    ensures a == b
  {
  }

  class RegisterComponent {
    var registrationInfo: RegistrationInfo

    var registrationError: bool
    var registrationErrorText: string
    var registrationSuccess: bool

    var usernameInvalidClass: string
    var usernameValidationMessage: string
    var passwordInvalidClass: string
    var passwordValidationMessage: string
    var passwordConfirmInvalidClass: string
    var passwordConfirmValidationMessage: string

    var userProvidedEmailDuringRegistration: bool

    /** Every registration request handed to the user API, in order. */
    var submitted: seq<RegisterUserRequest>

    ghost function UsernameFeedback(): (f: FieldFeedback) reads this {
      FieldFeedback(usernameValidationMessage, usernameInvalidClass)
    }

    ghost function PasswordFeedback(): (f: FieldFeedback) reads this {
      FieldFeedback(passwordValidationMessage, passwordInvalidClass)
    }

    ghost function ConfirmFeedback(): (f: FieldFeedback) reads this {
      FieldFeedback(passwordConfirmValidationMessage, passwordConfirmInvalidClass)
    }

    /**
     * The feedback `ValidateForm` leaves: the username field is always
     * checked, the password field only if the username passed, and the
     * confirmation field only if both passed; an unchecked field is unchanged.
     */
    twostate predicate FormValidated()
      reads this
    {
      var info := registrationInfo;
      UsernameFeedback() == Feedback(old(UsernameFeedback()), UsernameError(info.username)) &&
      PasswordFeedback() ==
        (if UsernameAcceptable(info.username)
         then Feedback(old(PasswordFeedback()), PasswordError(info.password))
         else old(PasswordFeedback())) &&
      ConfirmFeedback() ==
        (if UsernameAcceptable(info.username) && PasswordAcceptable(info.password)
         then Feedback(old(ConfirmFeedback()), ConfirmationError(info.password, info.passwordConfirm))
         else old(ConfirmFeedback()))
    }

    constructor (info: RegistrationInfo)
      ensures registrationInfo == info
      ensures !registrationError && registrationErrorText == "" && !registrationSuccess
      ensures UsernameFeedback() == PasswordFeedback() == ConfirmFeedback() == FieldFeedback("", "")
      ensures !userProvidedEmailDuringRegistration && submitted == []
    {
      registrationInfo := info;
      registrationError, registrationErrorText, registrationSuccess := false, "", false;
      usernameInvalidClass, usernameValidationMessage := "", "";
      passwordInvalidClass, passwordValidationMessage := "", "";
      passwordConfirmInvalidClass, passwordConfirmValidationMessage := "", "";
      userProvidedEmailDuringRegistration := false;
      submitted := [];
    }

    method ValidateUsername() returns (ok: bool)
      modifies this`usernameValidationMessage, this`usernameInvalidClass
      ensures ok <==> UsernameAcceptable(registrationInfo.username)
      ensures UsernameFeedback() == Feedback(old(UsernameFeedback()), UsernameError(registrationInfo.username))
    {
      var username := registrationInfo.username;
      if |username| == 0 {
        usernameValidationMessage := MissingUsername;
        usernameInvalidClass := IsInvalid;
        return false;
      } else if Utf16Length(username) > MaxUsernameLength {
        usernameValidationMessage := UsernameTooLong;
        usernameInvalidClass := IsInvalid;
        return false;
      } else if ' ' in username {
        usernameValidationMessage := UsernameContainsSpaces;
        usernameInvalidClass := IsInvalid;
        return false;
      }

      usernameInvalidClass := "";
      return true;
    }

    method ValidatePassword() returns (ok: bool)
      modifies this`passwordValidationMessage, this`passwordInvalidClass
      ensures ok <==> PasswordAcceptable(registrationInfo.password)
      ensures PasswordFeedback() == Feedback(old(PasswordFeedback()), PasswordError(registrationInfo.password))
    {
      if |registrationInfo.password| == 0 {
        passwordValidationMessage := MissingPassword;
        passwordInvalidClass := IsInvalid;
        return false;
      }

      passwordInvalidClass := "";
      return true;
    }

    method ValidatePasswordConfirmation() returns (ok: bool)
      modifies this`passwordConfirmValidationMessage, this`passwordConfirmInvalidClass
      ensures ok <==> ConfirmationAcceptable(registrationInfo.password, registrationInfo.passwordConfirm)
      ensures ConfirmFeedback() ==
                Feedback(old(ConfirmFeedback()),
                         ConfirmationError(registrationInfo.password, registrationInfo.passwordConfirm))
    {
      if |registrationInfo.passwordConfirm| == 0 {
        passwordConfirmValidationMessage := MissingPasswordConfirm;
        passwordConfirmInvalidClass := IsInvalid;
        return false;
      } else if registrationInfo.password != registrationInfo.passwordConfirm {
        passwordConfirmValidationMessage := PasswordConfirmDoesNotMatch;
        passwordConfirmInvalidClass := IsInvalid;
        return false;
      }

      passwordConfirmInvalidClass := "";
      return true;
    }

    /** The short-circuit conjunction of the three validators, in order. */
    method ValidateForm() returns (ok: bool)
      modifies this`usernameValidationMessage, this`usernameInvalidClass,
               this`passwordValidationMessage, this`passwordInvalidClass,
               this`passwordConfirmValidationMessage, this`passwordConfirmInvalidClass
      ensures ok <==> FormAcceptable(registrationInfo)
      ensures FormValidated()
    {
      ok := ValidateUsername();
      if ok {
        ok := ValidatePassword();
        if ok {
          ok := ValidatePasswordConfirmation();
        }
      }
    }

    /**
     * An invalid form changes only the validation feedback. A valid one sends
     * the request built from the form; a `Success` reply sets the success
     * fields, any other reply the error fields.
     */
    method OnRegisterClicked(authPassword: (string, string) -> string,
                             userService: RegisterUserRequest -> InsertUserResult)
      modifies this`usernameValidationMessage, this`usernameInvalidClass,
               this`passwordValidationMessage, this`passwordInvalidClass,
               this`passwordConfirmValidationMessage, this`passwordConfirmInvalidClass,
               this`registrationError, this`registrationErrorText, this`registrationSuccess,
               this`userProvidedEmailDuringRegistration, this`submitted
      ensures FormValidated()
      ensures !FormAcceptable(registrationInfo) ==>
                submitted == old(submitted) &&
                registrationError == old(registrationError) &&
                registrationErrorText == old(registrationErrorText) &&
                registrationSuccess == old(registrationSuccess) &&
                userProvidedEmailDuringRegistration == old(userProvidedEmailDuringRegistration)
      ensures FormAcceptable(registrationInfo) ==>
                var info := registrationInfo;
                var request := RegisterUserRequest(info.username, authPassword(info.username, info.password),
                                                   info.emailAddress);
                var result := userService(request);
                submitted == old(submitted) + [request] &&
                (result != Success ==>
                   registrationError && registrationErrorText == ErrorText(result) &&
                   registrationSuccess == old(registrationSuccess) &&
                   userProvidedEmailDuringRegistration == old(userProvidedEmailDuringRegistration)) &&
                (result == Success ==>
                   registrationSuccess &&
                   userProvidedEmailDuringRegistration == !IsNullOrEmpty(info.emailAddress) &&
                   registrationError == old(registrationError) &&
                   registrationErrorText == old(registrationErrorText))
    {
      var valid := ValidateForm();
      if !valid {
        return;
      }

      var info := registrationInfo;
      var request := RegisterUserRequest(info.username, authPassword(info.username, info.password),
                                         info.emailAddress);
      submitted := submitted + [request];
      var result := userService(request);

      if result != Success {
        registrationError := true;
        registrationErrorText := ErrorText(result);
      } else {
        userProvidedEmailDuringRegistration := !IsNullOrEmpty(info.emailAddress);
        registrationSuccess := true;
      }
    }
  }
}
