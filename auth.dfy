/**
 * The mocked identity provider: `mockSignIn`, which derives a user from the
 * sign-in arguments, and the provider object that keeps the current user in
 * step with the session entry in the browser's local storage.
 */
module Auth {
  import opened Wrappers
  import Strings

  /** The local-storage key of the persisted session. */
  const AUTH_USER_KEY: string := "voicevault-auth-user"
  const EMAIL_PROVIDER: string := "email"

  /** A signed-in user (the avatar URL, a constant per provider, is not modelled). */
  datatype User = User(id: string, name: string, email: string, provider: string)

  /** JavaScript truthiness of an optional string argument: present and non-empty. */
  predicate Truthy(s: Option<string>) {
    s.Some? && s.value != ""
  }

  /** `s || fallback` */
  function OrElse(s: Option<string>, fallback: string): (r: string)
    ensures Truthy(s) ==> r == s.value
    ensures !Truthy(s) ==> r == fallback
  {
    if Truthy(s) then s.value else fallback
  }

  /**
   * The display name a social provider gives its users: each of the two
   * known providers has its own name, and every other provider shares the
   * default one.
   */
  function ProviderName(provider: string): (name: string)
    ensures name == "Google User" <==> provider == "Google"
    ensures name == "Octocat" <==> provider == "GitHub"
    ensures name == "Jane Doe" <==> provider != "Google" && provider != "GitHub"
  {
    if provider == "Google" then "Google User"
    else if provider == "GitHub" then "Octocat"
    else "Jane Doe"
  }

  /**
   * `mockSignIn({ email, provider })`. A truthy provider selects a social
   * sign-in, anything else an email sign-in. With neither a truthy provider
   * nor an email the email branch dereferences `undefined` inside the timer
   * callback, so the returned promise never settles: that is `None`.
   */
  function MockSignIn(email: Option<string>, provider: Option<string>): (r: Option<User>)
    ensures r.None? <==> !Truthy(provider) && email.None?
    ensures r.Some? ==> r.value.provider == if Truthy(provider) then provider.value else EMAIL_PROVIDER
  {
    if Truthy(provider) then
      var p := Strings.Lower(provider.value);
      Some(User(p + "-id-" + OrElse(email, "anon"),
                ProviderName(provider.value),
                OrElse(email, p + "_user@mock.com"),
                provider.value))
    else if email.None? then
      None
    else
      Some(User("email-" + email.value,
                OrElse(Some(Strings.BeforeFirst(email.value, '@')), "User"),
                email.value,
                EMAIL_PROVIDER))
  }

  /** A social sign-in: the id, name and email it derives from the provider. */
  lemma SocialSignIn(email: Option<string>, provider: string)
    requires provider != ""
    ensures MockSignIn(email, Some(provider)).Some?
    ensures var u := MockSignIn(email, Some(provider)).value;
      && u.id == Strings.Lower(provider) + "-id-" + (if Truthy(email) then email.value else "anon")
      && u.name == (if provider == "Google" then "Google User" else if provider == "GitHub" then "Octocat" else "Jane Doe")
      && u.email == (if Truthy(email) then email.value else Strings.Lower(provider) + "_user@mock.com")
      && u.provider == provider
  {
  }

  /** `"Google".toLowerCase()` and `"GitHub".toLowerCase()`, letter by letter. */
  lemma LowerButtonProviders()
    ensures Strings.Lower("Google") == "google"
    ensures Strings.Lower("GitHub") == "github"
  {
    var g := Strings.Lower("Google");
    assert forall i :: 0 <= i < 6 ==> g[i] == "google"[i];
    var h := Strings.Lower("GitHub");
    assert forall i :: 0 <= i < 6 ==> h[i] == "github"[i];
  }

  /**
   * A social sign-in without an email, given the lower-cased provider and
   * its display name.
   */
  lemma AnonymousSocialUser(provider: string, lower: string, name: string)
    requires provider != "" && Strings.Lower(provider) == lower && ProviderName(provider) == name
    ensures MockSignIn(None, Some(provider)) == Some(User(lower + "-id-anon", name, lower + "_user@mock.com", provider))
  {
    assert lower + "-id-" + "anon" == lower + "-id-anon";
  }

  /** The Google button's user: every Google sign-in from the login page gets this id. */
  lemma GoogleUser()
    ensures MockSignIn(None, Some("Google")) == Some(User("google-id-anon", "Google User", "google_user@mock.com", "Google"))
  {
    assert "google" + "-id-anon" == "google-id-anon";
    assert "google" + "_user@mock.com" == "google_user@mock.com";
    LowerButtonProviders();
    AnonymousSocialUser("Google", "google", "Google User");
  }

  /** The GitHub button's user: every GitHub sign-in from the login page gets this id. */
  lemma GitHubUser()
    ensures MockSignIn(None, Some("GitHub")) == Some(User("github-id-anon", "Octocat", "github_user@mock.com", "GitHub"))
  {
    assert "github" + "-id-anon" == "github-id-anon";
    assert "github" + "_user@mock.com" == "github_user@mock.com";
    LowerButtonProviders();
    AnonymousSocialUser("GitHub", "github", "Octocat");
  }

  /**
   * An email sign-in keeps the email, and its name is the non-empty text
   * before the first `@`, or "User" when there is none.
   */
  lemma EmailSignIn(email: string)
    ensures MockSignIn(Some(email), None).Some?
    ensures var u := MockSignIn(Some(email), None).value;
      && u.id == "email-" + email
      && u.email == email
      && u.provider == EMAIL_PROVIDER
      && '@' !in u.name
      && ((email == [] || email[0] == '@') ==> u.name == "User")
      && (email != [] && email[0] != '@' ==>
            u.name != [] && u.name == email[..|u.name|] && (|u.name| == |email| || email[|u.name|] == '@'))
  {
  }

  /** Distinct emails sign in as distinct users (distinct ids). */
  lemma EmailIdsDistinct(e1: string, e2: string)
    requires e1 != e2
    ensures MockSignIn(Some(e1), None).value.id != MockSignIn(Some(e2), None).value.id
  {
    var p := "email-";
    assert (p + e1)[|p|..] == e1;
    assert (p + e2)[|p|..] == e2;
  }

  /**
   * The authentication context. `storage` is the part of the browser's
   * local storage the provider reads and writes; while the object is
   * Valid the session key holds exactly the current user.
   */
  class AuthProvider {
    var user: Option<User>
    var storage: map<string, User>

    ghost predicate Valid()
      reads this
    {
      && (user.Some? ==> AUTH_USER_KEY in storage && storage[AUTH_USER_KEY] == user.value)
      && (user.None? ==> AUTH_USER_KEY !in storage)
    }

    /**
     * Mount: `user` starts as null. The load effect reads the session key
     * first; the save effect of the same commit still sees a null user and
     * removes the key; the restored user then re-renders and is saved back.
     */
    constructor (stored: map<string, User>)
      ensures Valid()
      ensures user == if AUTH_USER_KEY in stored then Some(stored[AUTH_USER_KEY]) else None
      ensures storage == stored
    {
      user := None;
      storage := stored;
      new;
      var saved := if AUTH_USER_KEY in storage then Some(storage[AUTH_USER_KEY]) else None;
      storage := storage - {AUTH_USER_KEY};
      if saved.Some? {
        user := saved;
        storage := storage[AUTH_USER_KEY := user.value];
      }
    }

    /**
     * `login`: await the mock sign-in and make its result the current user,
     * which the save effect persists. `settled` is false when the sign-in
     * never resolves; nothing changes then.
     */
    method Login(email: Option<string>, provider: Option<string>) returns (settled: bool)
      requires Valid()
      modifies this
      ensures Valid()
      ensures settled == MockSignIn(email, provider).Some?
      ensures settled ==> user == MockSignIn(email, provider)
      ensures settled ==> storage == old(storage)[AUTH_USER_KEY := user.value]
      ensures !settled ==> user == old(user) && storage == old(storage)
    {
      var u := MockSignIn(email, provider);
      settled := u.Some?;
      if settled {
        user := u;
        storage := storage[AUTH_USER_KEY := user.value];
      }
    }

    /** `logout`: no user, and the save effect removes the session key. */
    method Logout()
      requires Valid()
      modifies this
      ensures Valid()
      ensures user.None?
      ensures storage == old(storage) - {AUTH_USER_KEY}
    {
      user := None;
      storage := storage - {AUTH_USER_KEY};
    }
  }

  /** A session saved by one provider is restored by the next mount. */
  method ReloadRestoresSession(p: AuthProvider, email: string) returns (q: AuthProvider)
    requires p.Valid()
    modifies p
    ensures q.Valid() && q.user == p.user == MockSignIn(Some(email), None)
  {
    var settled := p.Login(Some(email), None);
    q := new AuthProvider(p.storage);
  }
}
