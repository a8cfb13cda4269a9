/**
 * The authentication routes of the server (server/routes/auth.js): an
 * in-memory `Map` from email to user record, seeded with a demo account,
 * behind `POST /register`, `POST /login` and `GET /profile`, the last one
 * guarded by the bearer-token check `authenticateToken`.
 *
 * Password hashing (bcrypt) and tokens (jsonwebtoken, with the server's
 * secret and a seven-day expiry) are functions the routes receive.
 */
module AuthRoutes {
  import opened Wrappers
  import opened Text
  import opened JsMap
  import opened Http
  import opened Domain

  const FieldsRequired := "Tous les champs sont requis"
  const EmailTaken := "Un utilisateur avec cet email existe déjà"
  const CredentialsRequired := "Email et mot de passe requis"
  const BadCredentials := "Email ou mot de passe incorrect"
  const UserNotFound := "Utilisateur non trouvé"
  const TokenRequired := "Token d'accès requis"
  const TokenInvalid := "Token invalide"

  const DemoEmail := "demo@tradequantic.ai"
  const DemoName := "Utilisateur Demo"
  const DemoPassword := "demo123"
  const FreeQuota := 3

  /** The payload signed into a token. */
  datatype Claims = Claims(userId: Id, email: string)

  /** `bcrypt.hash`, `bcrypt.compare`, `jwt.sign` and `jwt.verify`. */
  datatype Crypto = Crypto(
    hash: string -> string,
    compare: (string, string) -> bool,
    sign: Claims -> string,
    verify: string -> Option<Claims>)

  /** A password matches its own hash. */
  predicate HashMatches(crypto: Crypto, password: string) {
    crypto.compare(password, crypto.hash(password))
  }

  /** A user as the server stores it: with the password hash. */
  datatype StoredUser = StoredUser(
    id: Id,
    email: string,
    name: string,
    password: string,
    plan: Plan,
    strategiesUsed: int,
    maxStrategies: int,
    createdAt: Timestamp,
    updatedAt: Timestamp)

  /** `const { password: _, ...userWithoutPassword } = user`: every field but the
      password. A `User` has no password field at all. */
  function WithoutPassword(u: StoredUser): (v: User)
    ensures v.id == u.id && v.email == u.email && v.name == u.name && v.plan == u.plan
    ensures v.strategiesUsed == u.strategiesUsed && v.maxStrategies == u.maxStrategies
    ensures v.createdAt == u.createdAt && v.updatedAt == u.updatedAt
  {
    User(u.id, u.email, u.name, u.plan, u.strategiesUsed, u.maxStrategies, u.createdAt, u.updatedAt)
  }

  /** Changing only the password of a stored user changes nothing the client sees. */
  lemma PasswordNeverShown(u: StoredUser, password: string)
    ensures WithoutPassword(u.(password := password)) == WithoutPassword(u)
  {
  }

  /** The answer to a successful register or login. */
  datatype Session = Session(token: string, user: User)

  /** The account the server starts with: the demo email and name, the hash of
      the demo password, a free plan with one strategy used out of three. The
      two time stamps are two separate clock reads. */
  function DemoUser(crypto: Crypto, id: Id, createdAt: Timestamp, updatedAt: Timestamp): (u: StoredUser)
    ensures u.id == id && u.email == DemoEmail && u.name == DemoName
    ensures u.password == crypto.hash(DemoPassword)
    ensures u.plan == Free && u.strategiesUsed == 1 && u.maxStrategies == FreeQuota
    ensures u.strategiesUsed < u.maxStrategies
    ensures u.createdAt == createdAt && u.updatedAt == updatedAt
  {
    StoredUser(id, DemoEmail, DemoName, crypto.hash(DemoPassword), Free, 1, FreeQuota, createdAt, updatedAt)
  }

  /** The record `POST /register` stores: a free plan with no strategy used out of
      three, and the hash of the password, never the password itself. */
  function Registered(crypto: Crypto, id: Id, email: string, password: string, name: string,
                      createdAt: Timestamp, updatedAt: Timestamp)
    : (u: StoredUser)
    ensures u.id == id && u.email == email && u.name == name
    ensures u.password == crypto.hash(password)
    ensures u.plan == Free && u.strategiesUsed == 0 && u.maxStrategies == FreeQuota
    ensures u.createdAt == createdAt && u.updatedAt == updatedAt
  {
    StoredUser(id, email, name, crypto.hash(password), Free, 0, FreeQuota, createdAt, updatedAt)
  }

  /** `Array.from(users.values()).find(u => u.id === id)`: the first user with that id. */
  function FindById(users: seq<StoredUser>, id: Id): (r: Option<StoredUser>)
    ensures r.None? <==> forall i :: 0 <= i < |users| ==> users[i].id != id
    ensures r.Some? ==> exists i :: 0 <= i < |users| && users[i] == r.value
                          && forall j :: 0 <= j < i ==> users[j].id != id
    ensures r.Some? ==> r.value.id == id
  {
    if |users| == 0 then None
    else if users[0].id == id then Some(users[0])
    else
      FindById(users[1..], id)
  }

  /** Appending a user does not change who is found for an id some earlier user has. */
  lemma {:induction false} FindByIdAppend(users: seq<StoredUser>, u: StoredUser, id: Id)
    ensures FindById(users + [u], id) == if FindById(users, id).Some? then FindById(users, id)
                                         else if u.id == id then Some(u) else None
  {
    if |users| > 0 {
      assert (users + [u])[1..] == users[1..] + [u];
      FindByIdAppend(users[1..], u, id);
    }
  }

  /** `authHeader && authHeader.split(' ')[1]`: the second space-separated word,
      if the header is present and has one. */
  function BearerToken(header: Option<string>): (token: Option<string>)
    ensures token.Some? ==> !Missing(header) && !Contains(token.value, " ")
  {
    if Missing(header) then None
    else
      var parts := Split(header.value, " ");
      if |parts| >= 2 then Some(parts[1]) else None
  }

  /** A header "scheme token" with no space inside either word yields the token. */
  lemma {:induction false} BearerTokenOfHeader(scheme: string, token: string)
    requires ' ' !in scheme && ' ' !in token
    ensures BearerToken(Some(scheme + " " + token)) == Some(token)
  {
    assert Join([scheme, token], " ") == scheme + " " + token by {
      assert [scheme, token][1..] == [token];
    }
    SplitJoin([scheme, token], " ");
  }

  /** `authenticateToken`: 401 without a token, 403 when it does not verify,
      otherwise the decoded payload is attached (shown here as `Ok`). */
  function AuthenticateToken(header: Option<string>, crypto: Crypto): (r: Response<Claims>)
    ensures r == Err(401, TokenRequired) <==> Missing(BearerToken(header))
    ensures r == Err(403, TokenInvalid) <==>
              !Missing(BearerToken(header)) && crypto.verify(BearerToken(header).value).None?
    ensures r.Ok? ==> !Missing(BearerToken(header)) && crypto.verify(BearerToken(header).value) == Some(r.data)
  {
    var token := BearerToken(header);
    if Missing(token) then Err(401, TokenRequired)
    else match crypto.verify(token.value)
      case None => Err(403, TokenInvalid)
      case Some(claims) => Ok(200, claims)
  }

  /** A token the server signed, sent as "Bearer <token>", is accepted with its payload. */
  lemma SignedTokenAccepted(crypto: Crypto, claims: Claims)
    requires crypto.verify(crypto.sign(claims)) == Some(claims)
    requires crypto.sign(claims) != "" && ' ' !in crypto.sign(claims)
    ensures AuthenticateToken(Some("Bearer " + crypto.sign(claims)), crypto) == Ok(200, claims)
  {
    var token := crypto.sign(claims);
    assert "Bearer " + token == "Bearer" + " " + token;
    BearerTokenOfHeader("Bearer", token);
  }

  /** The module-level `users` map and the routes over it. */
  class UserRegistry {
    var users: OrderedMap<string, StoredUser>

    /** The map is well formed and every user is stored under its own email. */
    ghost predicate Valid()
      reads this
    {
      users.Valid() && forall e :: e in users.table ==> users.table[e].email == e
    }

    /** The map as the module loads: the demo account. */
    constructor(crypto: Crypto, demoId: Id, createdAt: Timestamp, updatedAt: Timestamp)
      ensures Valid()
      ensures users.Values() == [DemoUser(crypto, demoId, createdAt, updatedAt)]
      ensures HashMatches(crypto, DemoPassword) ==>
                Login(Some(DemoEmail), Some(DemoPassword), crypto).Ok?
                && Login(Some(DemoEmail), Some(DemoPassword), crypto).data.user.id == demoId
    {
      SetAbsent(Empty(), DemoEmail, DemoUser(crypto, demoId, createdAt, updatedAt));
      users := Empty().Set(DemoEmail, DemoUser(crypto, demoId, createdAt, updatedAt));
    }

    /** `POST /register`. `userId` is the `uuidv4()` draw. */
    method Register(email: Option<string>, password: Option<string>, name: Option<string>,
                    crypto: Crypto, userId: Id, createdAt: Timestamp, updatedAt: Timestamp)
      returns (r: Response<Session>)
      requires Valid()
      modifies this
      ensures Valid()
      ensures Missing(email) || Missing(password) || Missing(name) ==>
                r == Err(400, FieldsRequired) && users == old(users)
      ensures !Missing(email) && !Missing(password) && !Missing(name) && old(users).Has(email.value) ==>
                r == Err(400, EmailTaken) && users == old(users)
      ensures !Missing(email) && !Missing(password) && !Missing(name) && !old(users).Has(email.value) ==>
                var u := Registered(crypto, userId, email.value, password.value, name.value, createdAt, updatedAt);
                r == Ok(201, Session(crypto.sign(Claims(userId, email.value)), WithoutPassword(u)))
                && users == old(users).Set(email.value, u)
                && users.Values() == old(users.Values()) + [u]
                && (HashMatches(crypto, password.value) ==>
                      Login(email, password, crypto) == Ok(200, Session(crypto.sign(Claims(userId, email.value)), r.data.user)))
                && (FindById(old(users.Values()), userId).None? ==>
                      ProfileOf(Claims(userId, email.value)) == Ok(200, r.data.user))
    {
      if Missing(email) || Missing(password) || Missing(name) {
        return Err(400, FieldsRequired);
      }
      if users.Has(email.value) {
        return Err(400, EmailTaken);
      }
      var u := Registered(crypto, userId, email.value, password.value, name.value, createdAt, updatedAt);
      SetAbsent(users, email.value, u);
      FindByIdAppend(users.Values(), u, userId);
      users := users.Set(email.value, u);
      r := Ok(201, Session(crypto.sign(Claims(userId, email.value)), WithoutPassword(u)));
    }

    /** `POST /login`. It only reads the map; an unknown email and a wrong
        password get the same answer. */
    function Login(email: Option<string>, password: Option<string>, crypto: Crypto): (r: Response<Session>)
      reads this
      requires Valid()
      ensures Missing(email) || Missing(password) ==> r == Err(400, CredentialsRequired)
      ensures !Missing(email) && !Missing(password) ==>
                (r.Ok? <==> users.Has(email.value) && crypto.compare(password.value, users.table[email.value].password))
      ensures !Missing(email) && !Missing(password) && r.Err? ==> r == Err(401, BadCredentials)
      ensures r.Ok? ==> var u := users.table[email.value];
                        r == Ok(200, Session(crypto.sign(Claims(u.id, email.value)), WithoutPassword(u)))
    {
      if Missing(email) || Missing(password) then Err(400, CredentialsRequired)
      else match users.Get(email.value)
        case None => Err(401, BadCredentials)
        case Some(u) =>
          if !crypto.compare(password.value, u.password) then Err(401, BadCredentials)
          else Ok(200, Session(crypto.sign(Claims(u.id, email.value)), WithoutPassword(u)))
    }

    /** The body of `GET /profile` once the token is accepted: the first stored
        user whose id is the token's `userId`. */
    function ProfileOf(claims: Claims): (r: Response<User>)
      reads this
      requires Valid()
      ensures r.Err? <==> forall i :: 0 <= i < |users.Values()| ==> users.Values()[i].id != claims.userId
      ensures r.Err? ==> r == Err(404, UserNotFound)
      ensures r.Ok? ==> r.status == 200 && r.data.id == claims.userId
                        && exists i :: 0 <= i < |users.Values()| && r.data == WithoutPassword(users.Values()[i])
    {
      match FindById(users.Values(), claims.userId)
      case None => Err(404, UserNotFound)
      case Some(u) => Ok(200, WithoutPassword(u))
    }

    /** `GET /profile` behind `authenticateToken`. */
    function Profile(header: Option<string>, crypto: Crypto): (r: Response<User>)
      reads this
      requires Valid()
      ensures r.Err? && r.status == 401 <==> Missing(BearerToken(header))
      ensures r.Err? && r.status == 403 <==>
                !Missing(BearerToken(header)) && crypto.verify(BearerToken(header).value).None?
      ensures AuthenticateToken(header, crypto).Ok? ==> r == ProfileOf(AuthenticateToken(header, crypto).data)
    {
      match AuthenticateToken(header, crypto)
      case Err(status, message) => Err(status, message)
      case Ok(_, claims) => ProfileOf(claims)
    }
  }
}
