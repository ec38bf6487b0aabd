/**
 * The NextAuth callbacks: `jwt` writes the identity into the token, `session` copies it onto the
 * client session, `signIn` admits any account with an email. Token and session are objects the
 * callbacks update in place. The allow-list is passed in.
 */
module AuthCallbacks {
  import opened Wrappers
  import Text

  /** The signed-in account as the provider reports it. */
  datatype AuthUser = AuthUser(email: Option<string>)

  class JwtToken {
    var email: Option<string>
    var isAdmin: Option<bool>

    constructor(email: Option<string>, isAdmin: Option<bool>)
      ensures this.email == email && this.isAdmin == isAdmin
    {
      this.email := email;
      this.isAdmin := isAdmin;
    }
  }

  class SessionUser {
    var email: Option<string>
    var isAdmin: Option<bool>

    constructor(email: Option<string>)
      ensures this.email == email && this.isAdmin.None?
    {
      this.email := email;
      this.isAdmin := None;
    }
  }

  class Session {
    const user: SessionUser?

    constructor(user: SessionUser?)
      ensures this.user == user
    {
      this.user := user;
    }
  }

  /** `jwt`: with an email, store it lower-cased and whether that spelling is on the allow-list. */
  method Jwt(token: JwtToken, user: Option<AuthUser>, adminEmails: seq<string>) returns (r: JwtToken)
    modifies token
    ensures r == token
    ensures user.Some? && Truthy(user.value.email) ==>
      && token.email == Some(Text.ToLower(user.value.email.value))
      && token.isAdmin == Some(Text.ToLower(user.value.email.value) in adminEmails)
    ensures !(user.Some? && Truthy(user.value.email)) ==> token.email == old(token.email) && token.isAdmin == old(token.isAdmin)
  {
    if user.Some? && user.value.email.Some? && user.value.email.value != "" {
      var email := Text.ToLower(user.value.email.value);
      token.email := Some(email);
      token.isAdmin := Some(email in adminEmails);
    }
    r := token;
  }

  /** `session`: copy the token's email and admin flag onto the session's user, when there is one. */
  method SessionCallback(session: Session, token: JwtToken) returns (r: Session)
    modifies session.user
    ensures r == session
    ensures session.user != null ==> session.user.email == token.email && session.user.isAdmin == token.isAdmin
  {
    if session.user != null {
      session.user.email := token.email;
      session.user.isAdmin := token.isAdmin;
    }
    r := session;
  }

  /** `signIn`: any account with a non-empty email may sign in; authorisation happens later. */
  function SignIn(user: Option<AuthUser>): (r: bool)
    ensures r <==> user.Some? && user.value.email.Some? && |user.value.email.value| > 0
  {
    user.Some? && Truthy(user.value.email)
  }

  /** The stored email is already lower-case, so the token agrees with the middleware's own lower-casing. */
  lemma JwtEmailIsLowerCase(email: string)
    ensures Text.ToLower(Text.ToLower(email)) == Text.ToLower(email)
    ensures forall i :: 0 <= i < |Text.ToLower(email)| ==> !Text.IsAsciiUpper(Text.ToLower(email)[i])
  {
    Text.ToLowerIdempotent(email);
  }
}
