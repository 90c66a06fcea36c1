/**
 * Registration and login (src/routes/auth.js) over a user table keyed by
 * email. Password hashing (the user model's save step), password
 * comparison and token signing are external primitives: hashing and
 * comparison are function parameters, a signed token is the term that
 * names what was signed.
 */
module AuthRoutes {
  import opened Values

  const UserExistsMessage := "User already exists with this email"
  const InvalidCredentialsMessage := "Invalid credentials"
  const SecretMissingMessage := "JWT secret not configured"
  const RegisteredMessage := "User registered successfully"
  const LoginMessage := "Login successful"
  const DefaultExpiry := "24h"

  /** A stored user; `passwordHash` is what the user model saves for the password. */
  datatype User = User(id: string, name: string, email: string, passwordHash: string)

  /** The `user` object of a reply: id, name and email, never the password. */
  datatype PublicUser = PublicUser(id: string, name: string, email: string)

  /** `jwt.sign({ userId }, secret, { expiresIn })`, kept as the term it signs. */
  datatype Token = Token(userId: string, secret: string, expiresIn: string)

  /** The process environment the routes read. */
  datatype Env = Env(jwtSecret: Option<string>, jwtExpiresIn: Option<string>)

  datatype RegistrationInput = RegistrationInput(name: string, email: string, password: string)
  datatype LoginInput = LoginInput(email: string, password: string)

  /** `{ message, token, user }`. */
  datatype AuthBody = AuthBody(message: string, token: Token, user: PublicUser)

  /** `error?.details?.[0]?.message`: only a schema error with a non-empty first message stops the request. */
  predicate Rejects<T>(v: Validation<T>)
  {
    v.error.Some? && v.error.value != ""
  }

  /** The expiry the token is signed with: `JWT_EXPIRES_IN || "24h"`. */
  function ExpiresIn(env: Env): (e: string)
    ensures env.jwtExpiresIn.Some? && env.jwtExpiresIn.value != "" ==> e == env.jwtExpiresIn.value
    ensures env.jwtExpiresIn.None? || env.jwtExpiresIn.value == "" ==> e == DefaultExpiry
  {
    match env.jwtExpiresIn
    case Some(e) => if e != "" then e else DefaultExpiry
    case None => DefaultExpiry
  }

  /** The token for a user id, or None when the secret is missing or empty (`!jwtSecret`). */
  function SignToken(userId: string, env: Env): (t: Option<Token>)
    ensures t.None? <==> env.jwtSecret.None? || env.jwtSecret.value == ""
    ensures t.Some? ==> t.value == Token(userId, env.jwtSecret.value, ExpiresIn(env))
  {
    match env.jwtSecret
    case Some(s) => if s != "" then Some(Token(userId, s, ExpiresIn(env))) else None
    case None => None
  }

  function PublicView(u: User): (p: PublicUser)
  {
    PublicUser(u.id, u.name, u.email)
  }

  /** Every user is stored under its own email. */
  predicate EmailKeyed(users: map<string, User>)
  {
    forall e :: e in users ==> users[e].email == e
  }

  /** The user a successful registration saves. */
  function NewUser(input: RegistrationInput, id: string, hash: string -> string): (u: User)
    ensures u.email == input.email && u.passwordHash == hash(input.password)
    ensures PublicView(u) == PublicUser(id, input.name, input.email)
  {
    User(id, input.name, input.email, hash(input.password))
  }

  /**
   * `POST /api/auth/login`: read-only. `passwordMatches(plain, stored)` is
   * `bcrypt.compare`.
   */
  function Login(users: map<string, User>, input: Validation<LoginInput>, env: Env,
                 passwordMatches: (string, string) -> bool): (r: Reply<AuthBody>)
    requires EmailKeyed(users)
    ensures Rejects(input) ==> r == Refused(400, input.error.value)
    ensures !Rejects(input) && input.value.email !in users ==> r == Refused(401, InvalidCredentialsMessage)
    ensures !Rejects(input) && input.value.email in users
            && !passwordMatches(input.value.password, users[input.value.email].passwordHash)
            ==> r == Refused(401, InvalidCredentialsMessage)
    ensures !Rejects(input) && input.value.email in users
            && passwordMatches(input.value.password, users[input.value.email].passwordHash)
            && SignToken(users[input.value.email].id, env).None?
            ==> r == Refused(500, SecretMissingMessage)
    ensures r.Done? <==>
      && !Rejects(input)
      && input.value.email in users
      && passwordMatches(input.value.password, users[input.value.email].passwordHash)
      && SignToken(users[input.value.email].id, env).Some?
    ensures r.Done? ==>
      var u := users[input.value.email];
      r == Done(200, AuthBody(LoginMessage, Token(u.id, env.jwtSecret.value, ExpiresIn(env)),
                              PublicUser(u.id, u.name, input.value.email)))
    ensures r.Refused? ==> r.code in {400, 401, 500}
  {
    if Rejects(input) then Refused(400, input.error.value)
    else
      var email := input.value.email;
      if email !in users then Refused(401, InvalidCredentialsMessage)
      else
        var user := users[email];
        if !passwordMatches(input.value.password, user.passwordHash) then
          Refused(401, InvalidCredentialsMessage)
        else
          match SignToken(user.id, env)
          case None => Refused(500, SecretMissingMessage)
          case Some(token) => Done(200, AuthBody(LoginMessage, token, PublicView(user)))
  }

  /** An unknown email and a wrong password get the very same reply. */
  lemma UnknownEmailLooksLikeWrongPassword(users: map<string, User>, unknown: Validation<LoginInput>,
                                           wrong: Validation<LoginInput>, env: Env,
                                           passwordMatches: (string, string) -> bool)
    requires EmailKeyed(users)
    requires !Rejects(unknown) && unknown.value.email !in users
    requires !Rejects(wrong) && wrong.value.email in users
    requires !passwordMatches(wrong.value.password, users[wrong.value.email].passwordHash)
    ensures Login(users, unknown, env, passwordMatches) == Login(users, wrong, env, passwordMatches)
  {
  }

  /** The user table behind the auth routes. */
  class UserTable {
    var users: map<string, User>

    ghost predicate Valid()
      reads this
    {
      EmailKeyed(users)
    }

    constructor ()
      ensures Valid() && users == map[]
    {
      users := map[];
    }

    /**
     * `POST /api/auth/register`: check the body, refuse a known email, save
     * the user, then sign a token. The user is saved before the secret is
     * checked, so a missing secret answers 500 with the user already stored.
     * `newId` is the object id the store assigns; `hash` is what the user
     * model does to the password when it saves it.
     */
    method Register(input: Validation<RegistrationInput>, env: Env, newId: string, hash: string -> string)
      returns (r: Reply<AuthBody>)
      requires Valid()
      modifies this
      ensures Valid()
      ensures Rejects(input) ==> r == Refused(400, input.error.value) && users == old(users)
      ensures !Rejects(input) && input.value.email in old(users) ==>
        r == Refused(400, UserExistsMessage) && users == old(users)
      ensures !Rejects(input) && input.value.email !in old(users) ==>
        && users == old(users)[input.value.email := NewUser(input.value, newId, hash)]
        && |users| == |old(users)| + 1
        && (SignToken(newId, env).None? ==> r == Refused(500, SecretMissingMessage))
        && (SignToken(newId, env).Some? ==>
              r == Done(201, AuthBody(RegisteredMessage, SignToken(newId, env).value,
                                      PublicUser(newId, input.value.name, input.value.email))))
    {
      if Rejects(input) {
        return Refused(400, input.error.value);
      }
      var email := input.value.email;
      if email in users {
        return Refused(400, UserExistsMessage);
      }
      var user := NewUser(input.value, newId, hash);
      users := users[email := user];
      match SignToken(user.id, env)
      case None =>
        r := Refused(500, SecretMissingMessage);
      case Some(token) =>
        r := Done(201, AuthBody(RegisteredMessage, token, PublicView(user)));
    }
  }

  /**
   * After a registration saved a user, logging in with the same email and
   * password succeeds (when the comparison accepts the password against
   * its saved hash and a secret is configured) and names the same user.
   */
  lemma RegisterThenLogin(users: map<string, User>, reg: RegistrationInput, id: string,
                          hash: string -> string, login: Validation<LoginInput>, env: Env,
                          passwordMatches: (string, string) -> bool)
    requires EmailKeyed(users) && reg.email !in users
    requires !Rejects(login) && login.value == LoginInput(reg.email, reg.password)
    requires passwordMatches(reg.password, hash(reg.password))
    requires SignToken(id, env).Some?
    ensures EmailKeyed(users[reg.email := NewUser(reg, id, hash)])
    ensures Login(users[reg.email := NewUser(reg, id, hash)], login, env, passwordMatches)
            == Done(200, AuthBody(LoginMessage, SignToken(id, env).value, PublicUser(id, reg.name, reg.email)))
  {
  }

  /**
   * Registering the same body twice: the second attempt is refused with
   * 400 and the table holds the one user the first attempt saved.
   */
  method RegisterTwice(t: UserTable, input: Validation<RegistrationInput>, env: Env,
                       id1: string, id2: string, hash: string -> string)
    returns (first: Reply<AuthBody>, second: Reply<AuthBody>)
    requires t.Valid() && !Rejects(input) && input.value.email !in t.users
    modifies t
    ensures t.Valid()
    ensures second == Refused(400, UserExistsMessage)
    ensures t.users == old(t.users)[input.value.email := NewUser(input.value, id1, hash)]
  {
    first := t.Register(input, env, id1, hash);
    second := t.Register(input, env, id2, hash);
  }
}
