/**
 * The login page: the email check in front of `login`, and the two handlers
 * that step `error` and `pending` around the call.
 */
module Login {
  import opened Wrappers
  import Strings
  import Auth

  const INVALID_EMAIL: string := "Please enter a valid email."
  const EMAIL_LOGIN_FAILED: string := "Login failed."
  const SOCIAL_LOGIN_FAILED: string := "Social login failed"

  /**
   * The language of the regular expression `^[^@]+@[^@]+\.[^@]+$`: a
   * non-empty `@`-free part, an `@`, a non-empty `@`-free part, a `.` and a
   * non-empty `@`-free part, covering the whole string.
   */
  ghost predicate MatchesEmailPattern(s: string) {
    exists i, j ::
      && 0 < i && i + 1 < j && j + 1 < |s|
      && s[i] == '@' && s[j] == '.'
      && '@' !in s[..i] && '@' !in s[i + 1..j] && '@' !in s[j + 1..]
  }

  /**
   * `!email || !/^[^@]+@[^@]+\.[^@]+$/.test(email)`, negated: the email is
   * accepted. The part before the first `@` must be non-empty, no second `@`
   * may follow, and a `.` must stand strictly inside the rest, neither first
   * nor last.
   */
  function IsValidEmail(email: string): (ok: bool)
    ensures ok ==> 5 <= |email|
  {
    var at := |Strings.BeforeFirst(email, '@')|;
    && email != ""
    && 0 < at && at + 3 <= |email|
    && '@' !in email[at + 1..]
    && '.' in email[at + 2..|email| - 1]
  }

  /** The check accepts exactly the strings the regular expression matches. */
  lemma IsValidEmailMatchesPattern(s: string)
    ensures IsValidEmail(s) <==> MatchesEmailPattern(s)
  {
  }

  /**
   * A valid email signs in under the name before its `@`, never the
   * "User" fallback.
   */
  lemma ValidEmailSignIn(email: string)
    requires IsValidEmail(email)
    ensures var u := Auth.MockSignIn(Some(email), None).value;
      && u.id == "email-" + email
      && u.name != [] && '@' !in u.name
      && |u.name| < |email| && u.name == email[..|u.name|] && email[|u.name|] == '@'
  {
  }

  class LoginPage {
    var email: string
    var pending: bool
    var error: string
    const auth: Auth.AuthProvider

    constructor (auth: Auth.AuthProvider)
      ensures this.auth == auth
      ensures email == "" && !pending && error == ""
    {
      this.auth := auth;
      email := "";
      pending := false;
      error := "";
    }

    /** The email field's `onChange`. */
    method EditEmail(value: string)
      modifies this
      ensures email == value && pending == old(pending) && error == old(error)
    {
      email := value;
    }

    /**
     * `handleEmailLogin`: clear the error, go pending, reject an invalid
     * email without calling `login`, otherwise await `login({ email })`;
     * `loginFails` stands for that call rejecting. Every path ends with
     * `pending` false.
     */
    method HandleEmailLogin(loginFails: bool)
      requires auth.Valid()
      modifies this, auth
      ensures auth.Valid()
      ensures email == old(email) && !pending
      ensures !IsValidEmail(email) ==>
        error == INVALID_EMAIL && auth.user == old(auth.user) && auth.storage == old(auth.storage)
      ensures IsValidEmail(email) && loginFails ==>
        error == EMAIL_LOGIN_FAILED && auth.user == old(auth.user) && auth.storage == old(auth.storage)
      ensures IsValidEmail(email) && !loginFails ==>
        && error == "" && auth.user == Auth.MockSignIn(Some(email), None)
        && auth.storage == old(auth.storage)[Auth.AUTH_USER_KEY := auth.user.value]
    {
      error := "";
      pending := true;
      if !IsValidEmail(email) {
        error := INVALID_EMAIL;
        pending := false;
        return;
      }
      if loginFails {
        error := EMAIL_LOGIN_FAILED;
      } else {
        var settled := auth.Login(Some(email), None);
      }
      pending := false;
    }

    /**
     * `handleSocialLogin(provider)`: clear the error, go pending and await
     * `login({ provider })`. The signed-in id is the lower-cased provider
     * followed by "-id-anon", since no email is passed. An empty provider
     * reaches the email branch of the mock with no email, whose promise
     * never settles, so `pending` stays true.
     */
    method HandleSocialLogin(provider: string, loginFails: bool)
      requires auth.Valid()
      modifies this, auth
      ensures auth.Valid()
      ensures email == old(email)
      ensures loginFails ==>
        error == SOCIAL_LOGIN_FAILED && !pending && auth.user == old(auth.user) && auth.storage == old(auth.storage)
      ensures !loginFails && provider != "" ==>
        && error == "" && !pending
        && auth.user == Auth.MockSignIn(None, Some(provider))
        && auth.user.value.id == Strings.Lower(provider) + "-id-anon"
        && auth.storage == old(auth.storage)[Auth.AUTH_USER_KEY := auth.user.value]
      ensures !loginFails && provider == "" ==>
        error == "" && pending && auth.user == old(auth.user) && auth.storage == old(auth.storage)
    {
      error := "";
      pending := true;
      if loginFails {
        error := SOCIAL_LOGIN_FAILED;
      } else {
        var settled := auth.Login(None, Some(provider));
        if !settled {
          return;
        }
      }
      pending := false;
    }
  }
}
