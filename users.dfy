/** The user routes: registration with a duplicate-email check, the login
    decision, and the projection `/current` returns. Hashing, salting, token
    signing and gravatar lookup are foreign libraries and arrive as function
    parameters. */
module Users {
  import opened Js
  import opened Http

  type Email = string

  /** A stored user document. `password` holds whatever was assigned last: the
      plaintext when the document is built, the hash once it is saved. */
  datatype User = User(id: UserId, name: string, email: Email, avatar: string, password: string)

  /** The registration form fields read from the request body. */
  datatype Registration = Registration(name: string, email: Email, password: string)

  /** The options handed to `gravatar.url`: size, rating and default image. */
  datatype GravatarOptions = GravatarOptions(size: string, rating: string, fallback: string)

  const AvatarOptions := GravatarOptions("200", "pg", "mm")

  /** The claims signed into a login token. */
  datatype TokenPayload = TokenPayload(id: UserId, name: string, avatar: string)

  /** `expiresIn`, in seconds. */
  const TokenLifetime := 3600

  /** `{ user }`: the register reply wraps the saved document. */
  datatype Registered = Registered(user: User)

  /** `{ success, token }`: the login reply. */
  datatype LoginReply = LoginReply(success: bool, token: string)

  const EmailExists := map["email" := "Email already exists"]
  const UserNotFound := map["email" := "User not found"]
  const PasswordIncorrect := map["password" := "Password incorrect"]
  const SigningFailed := map["password" := "Error during signing token"]

  /** `/current`: exactly the id, name and email of the authenticated user; the
      password field and the avatar are not sent. */
  function CurrentUser(u: User): (r: map<string, string>)
    ensures r.Keys == {"id", "name", "email"}
    ensures "password" !in r && "avatar" !in r
    ensures r["id"] == u.id && r["name"] == u.name && r["email"] == u.email
  {
    map["id" := u.id, "name" := u.name, "email" := u.email]
  }

  /** The users collection, looked up by email. */
  class UserStore {
    var users: map<Email, User>

    /** Every user is filed under its own email, and ids are distinct. */
    ghost predicate Valid()
      reads this
    {
      && (forall e :: e in users ==> users[e].email == e)
      && (forall e, f :: e in users && f in users && e != f ==> users[e].id != users[f].id)
    }

    constructor ()
      ensures Valid() && users == map[]
    {
      users := map[];
    }

    /** Whether some stored user already has this id. */
    predicate IdTaken(id: UserId)
      reads this
    {
      exists e :: e in users && users[e].id == id
    }

    /** `POST /register`: a taken email answers 400 and adds nobody; otherwise
        the user is built with the plaintext password, the password is replaced
        by its hash under `salt`, and the saved document is sent back. */
    method Register(reg: Registration, newId: UserId, salt: string,
                    gravatar: (Email, GravatarOptions) -> string,
                    hash: (string, string) -> string)
      returns (r: Response<Registered>)
      requires Valid()
      requires !IdTaken(newId)
      modifies this
      ensures Valid()
      ensures reg.email in old(users) ==> r == Fail(400, EmailExists) && users == old(users)
      ensures reg.email !in old(users) ==>
        var saved := User(newId, reg.name, reg.email, gravatar(reg.email, AvatarOptions),
                          hash(reg.password, salt));
        && users == old(users)[reg.email := saved]
        && r == Json(Registered(saved))
    {
      if reg.email in users {
        return Fail(400, EmailExists);
      }
      var avatar := gravatar(reg.email, AvatarOptions);
      var newUser := User(newId, reg.name, reg.email, avatar, reg.password);
      newUser := newUser.(password := hash(newUser.password, salt));
      users := users[reg.email := newUser];
      r := Json(Registered(newUser));
    }

    /** `POST /login`: unknown email answers 404; a password that does not
        match the stored hash answers 400; otherwise the payload id, name and
        avatar are signed for an hour, and the reply carries "Bearer " and the
        token, or 400 when signing fails. */
    function Login(email: Email, password: string, secret: string,
                   compare: (string, string) -> bool,
                   sign: (TokenPayload, string, int) -> Option<string>)
      : (r: Response<LoginReply>)
      reads this
      ensures r == Fail(404, UserNotFound) <==> email !in users
      ensures r == Fail(400, PasswordIncorrect) <==>
        email in users && !compare(password, users[email].password)
      ensures r.Json? <==>
        && email in users
        && compare(password, users[email].password)
        && sign(TokenPayload(users[email].id, users[email].name, users[email].avatar),
                secret, TokenLifetime).Some?
      ensures r.Json? ==>
        r.body == LoginReply(true, "Bearer " + sign(TokenPayload(users[email].id, users[email].name,
                                                                  users[email].avatar),
                                                     secret, TokenLifetime).value)
      ensures
        && email in users
        && compare(password, users[email].password)
        && sign(TokenPayload(users[email].id, users[email].name, users[email].avatar),
                secret, TokenLifetime).None?
        ==> r == Fail(400, SigningFailed)
      ensures r.Json? || r.Fail?
    {
      if email !in users then Fail(404, UserNotFound)
      else
        var user := users[email];
        if !compare(password, user.password) then Fail(400, PasswordIncorrect)
        else
          match sign(TokenPayload(user.id, user.name, user.avatar), secret, TokenLifetime)
          case None =>
            assert SigningFailed["password"] != PasswordIncorrect["password"];
            Fail(400, SigningFailed)
          case Some(token) => Json(LoginReply(true, "Bearer " + token))
    }
  }

  /** Registering the same email twice in a row: the second attempt is
      rejected and the first user stays as saved. */
  method RegisterTwice(store: UserStore, first: Registration, second: Registration,
                       id1: UserId, id2: UserId, salt1: string, salt2: string,
                       gravatar: (Email, GravatarOptions) -> string,
                       hash: (string, string) -> string)
    returns (r1: Response<Registered>, r2: Response<Registered>)
    requires store.Valid()
    requires !store.IdTaken(id1) && !store.IdTaken(id2) && id1 != id2
    requires first.email == second.email
    modifies store
    ensures store.Valid()
    ensures r2 == Fail(400, EmailExists)
    ensures first.email in store.users
    ensures r1.Json? ==> store.users[first.email] == r1.body.user
  {
    r1 := store.Register(first, id1, salt1, gravatar, hash);
    assert first.email in store.users;
    if r1.Json? {
      assert !store.IdTaken(id2);
    }
    r2 := store.Register(second, id2, salt2, gravatar, hash);
  }

  /** A user who has just registered and then logs in with the same password
      receives a token, provided `compare` recognises the hash it made and
      signing succeeds. */
  method RegisterThenLogin(store: UserStore, reg: Registration, id: UserId, salt: string,
                           secret: string,
                           gravatar: (Email, GravatarOptions) -> string,
                           hash: (string, string) -> string,
                           compare: (string, string) -> bool,
                           sign: (TokenPayload, string, int) -> Option<string>)
    returns (registered: Response<Registered>, login: Response<LoginReply>)
    requires store.Valid()
    requires !store.IdTaken(id)
    requires reg.email !in store.users
    requires compare(reg.password, hash(reg.password, salt))
    requires sign(TokenPayload(id, reg.name, gravatar(reg.email, AvatarOptions)), secret, TokenLifetime).Some?
    modifies store
    ensures registered.Json?
    ensures login.Json? && login.body.success
    ensures login.body.token == "Bearer " + sign(TokenPayload(id, reg.name, gravatar(reg.email, AvatarOptions)),
                                                 secret, TokenLifetime).value
  {
    registered := store.Register(reg, id, salt, gravatar, hash);
    login := store.Login(reg.email, reg.password, secret, compare, sign);
  }
}
