/** The authentication routes: `POST /login` and `POST /register`.

    Each attempt goes from received to authenticated (a token is issued and
    the user's last-login time is updated) or to rejected (an error goes to
    the error path and no last-login time changes). `User.authenticate`,
    `User.register` and the token signer are code this model does not see:
    each is a function parameter, `authenticate` and `register` of the user
    table as it stands, and the model says how the routes use what they
    return or throw. */
module Auth {
  import opened Common

  /** The JavaScript values `User.authenticate` and `User.register` may
      resolve to, as far as the routes' tests on them can tell apart. */
  datatype JsValue = Undefined | Null | Bool(b: bool) | Num(n: int) | Str(s: string) | Object

  /** JavaScript truthiness, the test `if (result)` applies. */
  predicate Truthy(v: JsValue)
  {
    match v
    case Undefined => false
    case Null => false
    case Bool(b) => b
    case Num(n) => n != 0
    case Str(s) => s != ""
    case Object => true
  }

  /** The token payload `{username}`. */
  datatype Claims = Claims(username: Username)

  /** A signed token, as `jwt.sign` returns it. */
  type Token = string

  /** The body of `POST /login`. */
  datatype Credentials = Credentials(username: Username, password: string)

  /** The body of `POST /register`. */
  datatype Registration = Registration(username: Username, password: string, firstName: string, lastName: string, phone: string)

  /** A user row; the password hash is left out. */
  datatype User = User(firstName: string, lastName: string, phone: string, joinAt: Time, lastLoginAt: Option<Time>)

  type Users = map<Username, User>

  /** `User.authenticate(username, password)`: what it resolves to or throws. */
  type Authenticator = (Users, Username, string) -> Result<JsValue>

  /** `User.register({...})`: what it resolves to or throws. */
  type Registrar = (Users, Registration) -> Result<JsValue>

  /** `jwt.sign(payload, SECRET_KEY)`: the token, or what it throws. */
  type Signer = Claims -> Result<Token>

  const InvalidCredentials := ExpressError("Invalid username/password", 400)

  /** The username is the table's key: `register` throws for a name already there. */
  ghost predicate KeyedRegistrar(register: Registrar)
  {
    forall users: Users, reg: Registration :: reg.username in users ==> register(users, reg).Err?
  }

  /** `User.updateLoginTimestamp(username)`: stamps that user's last login
      with `now`. It is not awaited, so a failure (no such user) never reaches
      the route: the users are then left as they were. */
  function Touched(users: Users, username: Username, now: Time): (u: Users)
    ensures u.Keys == users.Keys
    ensures username in users ==> u[username] == users[username].(lastLoginAt := Some(now))
    ensures forall n :: n in users && n != username ==> u[n] == users[n]
  {
    if username in users then users[username := users[username].(lastLoginAt := Some(now))] else users
  }

  /** The table `User.register` leaves behind, given what it answered: when it
      resolves, the new row is stored under the username, joined and last
      logged in at `now`; when it throws, nothing is stored. */
  function Registered(users: Users, reg: Registration, answer: Result<JsValue>, now: Time): (u: Users)
    ensures answer.Ok? ==> u == users[reg.username := User(reg.firstName, reg.lastName, reg.phone, now, Some(now))]
    ensures answer.Err? ==> u == users
    ensures u.Keys == users.Keys + (if answer.Ok? then {reg.username} else {})
  {
    if answer.Ok? then users[reg.username := User(reg.firstName, reg.lastName, reg.phone, now, Some(now))] else users
  }

  /** The response of `POST /login` against the user table `users`. */
  function LoginResponse(users: Users, c: Credentials, authenticate: Authenticator, sign: Signer): (r: Result<Token>)
    // a token is issued exactly when authenticate returns `true` itself (strict `===`) and signing succeeds
    ensures r.Ok? <==> authenticate(users, c.username, c.password) == Ok(Bool(true)) && sign(Claims(c.username)).Ok?
    // the token is the one signed for the requested username, and carries only that name
    ensures r.Ok? ==> r == sign(Claims(c.username))
    // an error thrown by authenticate is forwarded unchanged
    ensures authenticate(users, c.username, c.password).Err? ==> r == Err(authenticate(users, c.username, c.password).error)
    // any other answer, truthy or not, is the generic 400
    ensures authenticate(users, c.username, c.password).Ok? && authenticate(users, c.username, c.password).value != Bool(true) ==>
      r == Err(InvalidCredentials) && r.error.status == 400
    // an error thrown while signing is forwarded unchanged
    ensures authenticate(users, c.username, c.password) == Ok(Bool(true)) && sign(Claims(c.username)).Err? ==>
      r == sign(Claims(c.username))
  {
    var result := authenticate(users, c.username, c.password);
    if result.Err? then Err(result.error)
    else if result.value == Bool(true) then sign(Claims(c.username))
    else Err(InvalidCredentials)
  }

  /** The response of `POST /register` against the user table `users`. */
  function RegisterResponse(users: Users, reg: Registration, register: Registrar, sign: Signer): (r: Result<Token>)
    // a token is issued exactly when register resolves to a truthy value and signing succeeds
    ensures r.Ok? <==> register(users, reg).Ok? && Truthy(register(users, reg).value) && sign(Claims(reg.username)).Ok?
    // the token is the one signed for the registered username, and carries only that name
    ensures r.Ok? ==> r == sign(Claims(reg.username))
    // an error thrown by register (a duplicate username, say) is forwarded unchanged
    ensures register(users, reg).Err? ==> r == Err(register(users, reg).error)
    // a falsy answer is rejected with the same 400 as a failed login
    ensures register(users, reg).Ok? && !Truthy(register(users, reg).value) ==> r == Err(InvalidCredentials) && r.error.status == 400
    // an error thrown while signing is forwarded unchanged
    ensures register(users, reg).Ok? && Truthy(register(users, reg).value) && sign(Claims(reg.username)).Err? ==>
      r == sign(Claims(reg.username))
  {
    var result := register(users, reg);
    if result.Err? then Err(result.error)
    else if Truthy(result.value) then sign(Claims(reg.username))
    else Err(InvalidCredentials)
  }

  /** Every answer login accepts, register accepts too; the converse fails:
      a truthy answer other than `true` (here the number 1) logs nobody in. */
  lemma StrictLoginTruthyRegister(users: Users, c: Credentials, reg: Registration, v: JsValue, sign: Signer)
    ensures LoginResponse(users, c, (_, _, _) => Ok(v), sign).Ok? && c.username == reg.username ==>
      RegisterResponse(users, reg, (_, _) => Ok(v), sign).Ok?
    ensures v == Num(1) ==>
      LoginResponse(users, c, (_, _, _) => Ok(v), sign).Err? &&
      RegisterResponse(users, reg, (_, _) => Ok(v), _ => Ok("token")).Ok?
  {
  }

  /** The user table, whose rows the routes add to and update in place. */
  class UserStore {
    var users: Users

    constructor (users0: Users)
      ensures users == users0
    {
      users := users0;
    }

    /** What `User.register` stores, given its answer. */
    method Insert(reg: Registration, answer: Result<JsValue>, now: Time)
      modifies this
      ensures users == Registered(old(users), reg, answer, now)
    {
      if answer.Ok? {
        users := users[reg.username := User(reg.firstName, reg.lastName, reg.phone, now, Some(now))];
      }
    }

    /** `User.updateLoginTimestamp(username)`, best effort. */
    method UpdateLoginTimestamp(username: Username, now: Time)
      modifies this
      ensures users == Touched(old(users), username, now)
    {
      if username in users {
        users := users[username := users[username].(lastLoginAt := Some(now))];
      }
    }
  }

  /** A handler's response together with the user table it leaves behind. */
  datatype AuthOutcome = AuthOutcome(response: Result<Token>, users: Users)

  /** `POST /login` against the table `users`; `now` is the clock reading
      `updateLoginTimestamp` stamps. */
  function LoginStep(users: Users, c: Credentials, authenticate: Authenticator, sign: Signer, now: Time): (o: AuthOutcome)
    ensures o.response == LoginResponse(users, c, authenticate, sign)
    // no user is added or removed, and no other user's row changes
    ensures o.users.Keys == users.Keys
    ensures forall n :: n in users && n != c.username ==> o.users[n] == users[n]
    // that user's last login is stamped exactly when a token is issued
    ensures c.username in users ==>
      o.users[c.username] == users[c.username].(lastLoginAt := if o.response.Ok? then Some(now) else users[c.username].lastLoginAt)
    ensures o.response.Err? ==> o.users == users
  {
    var r := LoginResponse(users, c, authenticate, sign);
    AuthOutcome(r, if r.Ok? then Touched(users, c.username, now) else users)
  }

  /** `POST /register` against the table `users`; `registeredAt` is the clock
      reading `User.register` stores, `now` the later one
      `updateLoginTimestamp` stamps. */
  function RegisterStep(users: Users, reg: Registration, register: Registrar, sign: Signer, registeredAt: Time, now: Time)
    : (o: AuthOutcome)
    ensures o.response == RegisterResponse(users, reg, register, sign)
    // only the registered username's row can appear or change
    ensures o.users.Keys == users.Keys + (if register(users, reg).Ok? then {reg.username} else {})
    ensures forall n :: n in users && n != reg.username ==> o.users[n] == users[n]
    // a resolving register stores the new row; its last login is the later stamp exactly when a token is issued
    ensures register(users, reg).Ok? ==>
      o.users[reg.username] == User(reg.firstName, reg.lastName, reg.phone, registeredAt,
                                    Some(if o.response.Ok? then now else registeredAt))
    // a throwing register leaves the table as it was
    ensures register(users, reg).Err? ==> o.users == users
  {
    var stored := Registered(users, reg, register(users, reg), registeredAt);
    var r := RegisterResponse(users, reg, register, sign);
    AuthOutcome(r, if r.Ok? then Touched(stored, reg.username, now) else stored)
  }

  /** The `POST /login` handler. */
  method Login(store: UserStore, c: Credentials, authenticate: Authenticator, sign: Signer, now: Time)
    returns (r: Result<Token>)
    modifies store
    ensures AuthOutcome(r, store.users) == LoginStep(old(store.users), c, authenticate, sign, now)
    // authenticated: that same user's last login is updated, no one else's
    ensures r.Ok? ==> store.users == Touched(old(store.users), c.username, now)
    // rejected: the users, last-login times included, are unchanged
    ensures r.Err? ==> store.users == old(store.users)
  {
    var result := authenticate(store.users, c.username, c.password);
    if result.Err? {
      return Err(result.error);
    }
    if result.value == Bool(true) {
      var token := sign(Claims(c.username));
      if token.Err? {
        return token;
      }
      store.UpdateLoginTimestamp(c.username, now);
      return token;
    }
    return Err(InvalidCredentials);
  }

  /** The `POST /register` handler. */
  method Register(store: UserStore, reg: Registration, register: Registrar, sign: Signer, registeredAt: Time, now: Time)
    returns (r: Result<Token>)
    modifies store
    ensures AuthOutcome(r, store.users) == RegisterStep(old(store.users), reg, register, sign, registeredAt, now)
    // on success the user's last login is the update's stamp; otherwise it is whatever register stored
    ensures r.Ok? ==> reg.username in store.users && store.users[reg.username].lastLoginAt == Some(now)
    ensures r.Err? && register(old(store.users), reg).Ok? ==>
      reg.username in store.users && store.users[reg.username].lastLoginAt == Some(registeredAt)
    ensures register(old(store.users), reg).Err? ==> store.users == old(store.users)
  {
    var result := register(store.users, reg);
    store.Insert(reg, result, registeredAt);
    if result.Err? {
      return Err(result.error);
    }
    if Truthy(result.value) {
      var token := sign(Claims(reg.username));
      if token.Err? {
        return token;
      }
      store.UpdateLoginTimestamp(reg.username, now);
      return token;
    }
    return Err(InvalidCredentials);
  }

  // ---------------------------------------------------------------------
  // Sequences of attempts.
  // ---------------------------------------------------------------------

  /** One request to the authentication routes, with the database clock's
      readings for it: `now` is what `updateLoginTimestamp` stamps, and a
      registration's `registeredAt` what `User.register` stores before it. */
  datatype Attempt =
    | LoginAttempt(credentials: Credentials, now: Time)
    | RegisterAttempt(registration: Registration, registeredAt: Time, now: Time)

  /** The username an attempt is for. */
  function AttemptUser(a: Attempt): Username
  {
    match a
    case LoginAttempt(c, _) => c.username
    case RegisterAttempt(reg, _, _) => reg.username
  }

  /** Whether the route issues a token for the attempt, against `users`. */
  predicate Accepted(users: Users, a: Attempt, authenticate: Authenticator, register: Registrar, sign: Signer)
  {
    match a
    case LoginAttempt(c, _) => LoginResponse(users, c, authenticate, sign).Ok?
    case RegisterAttempt(reg, _, _) => RegisterResponse(users, reg, register, sign).Ok?
  }

  /** The user table after one attempt, as `Login` and `Register` leave it. */
  function AttemptStep(users: Users, a: Attempt, authenticate: Authenticator, register: Registrar, sign: Signer): Users
  {
    match a
    case LoginAttempt(c, now) => LoginStep(users, c, authenticate, sign, now).users
    case RegisterAttempt(reg, registeredAt, now) => RegisterStep(users, reg, register, sign, registeredAt, now).users
  }

  /** The user table after the attempts, in order. */
  function RunAttempts(users: Users, attempts: seq<Attempt>, authenticate: Authenticator, register: Registrar, sign: Signer): Users
    decreases |attempts|
  {
    if attempts == [] then users
    else RunAttempts(AttemptStep(users, attempts[0], authenticate, register, sign), attempts[1..], authenticate, register, sign)
  }

  /** Running a prefix one attempt longer is one more step. */
  lemma RunAttemptsPrefix(users: Users, attempts: seq<Attempt>, i: nat, authenticate: Authenticator, register: Registrar, sign: Signer)
    requires i < |attempts|
    ensures RunAttempts(users, attempts[..i + 1], authenticate, register, sign)
      == RunAttempts(AttemptStep(users, attempts[0], authenticate, register, sign), attempts[1..][..i], authenticate, register, sign)
  {
    assert attempts[..i + 1][1..] == attempts[1..][..i];
  }

  /** Over any sequence of attempts, an existing user's row stays, keeps
      everything but its last-login time, and that time changes only if some
      attempt for that very username was accepted against the table of its time. */
  lemma {:induction false} LastLoginChangesOnlyOnAcceptance(users: Users, attempts: seq<Attempt>,
      authenticate: Authenticator, register: Registrar, sign: Signer, name: Username)
    requires KeyedRegistrar(register)
    requires name in users
    ensures var after := RunAttempts(users, attempts, authenticate, register, sign);
      && name in after
      && after[name].(lastLoginAt := users[name].lastLoginAt) == users[name]
      && (after[name].lastLoginAt != users[name].lastLoginAt ==>
            exists i :: 0 <= i < |attempts| && AttemptUser(attempts[i]) == name
              && Accepted(RunAttempts(users, attempts[..i], authenticate, register, sign), attempts[i], authenticate, register, sign))
    decreases |attempts|
  {
    if attempts != [] {
      var a := attempts[0];
      var users' := AttemptStep(users, a, authenticate, register, sign);
      if a.RegisterAttempt? && a.registration.username == name {
        assert register(users, a.registration).Err?;
      }
      assert name in users' && users'[name].(lastLoginAt := users[name].lastLoginAt) == users[name];
      LastLoginChangesOnlyOnAcceptance(users', attempts[1..], authenticate, register, sign, name);
      var after := RunAttempts(users, attempts, authenticate, register, sign);
      if after[name].lastLoginAt != users[name].lastLoginAt {
        if users'[name].lastLoginAt != users[name].lastLoginAt {
          assert attempts[..0] == [];
          assert AttemptUser(attempts[0]) == name
            && Accepted(RunAttempts(users, attempts[..0], authenticate, register, sign), attempts[0], authenticate, register, sign);
        } else {
          var i :| 0 <= i < |attempts[1..]| && AttemptUser(attempts[1..][i]) == name
                   && Accepted(RunAttempts(users', attempts[1..][..i], authenticate, register, sign), attempts[1..][i], authenticate, register, sign);
          RunAttemptsPrefix(users, attempts, i, authenticate, register, sign);
          assert AttemptUser(attempts[i + 1]) == name
            && Accepted(RunAttempts(users, attempts[..i + 1], authenticate, register, sign), attempts[i + 1], authenticate, register, sign);
        }
      }
    }
  }

  /** Every user the table gains over a sequence of attempts was registered by
      an attempt for that username, whose `register` call resolved. */
  lemma {:induction false} NewUsersWereRegistered(users: Users, attempts: seq<Attempt>,
      authenticate: Authenticator, register: Registrar, sign: Signer, name: Username)
    requires name in RunAttempts(users, attempts, authenticate, register, sign) && name !in users
    ensures exists i ::
      0 <= i < |attempts| && attempts[i].RegisterAttempt? && attempts[i].registration.username == name
      && register(RunAttempts(users, attempts[..i], authenticate, register, sign), attempts[i].registration).Ok?
    decreases |attempts|
  {
    var a := attempts[0];
    var users' := AttemptStep(users, a, authenticate, register, sign);
    if name in users' {
      assert attempts[..0] == [];
      assert a.RegisterAttempt? && a.registration.username == name && register(users, a.registration).Ok?;
    } else {
      NewUsersWereRegistered(users', attempts[1..], authenticate, register, sign, name);
      var i :| 0 <= i < |attempts[1..]| && attempts[1..][i].RegisterAttempt? && attempts[1..][i].registration.username == name
               && register(RunAttempts(users', attempts[1..][..i], authenticate, register, sign), attempts[1..][i].registration).Ok?;
      RunAttemptsPrefix(users, attempts, i, authenticate, register, sign);
      assert attempts[i + 1].RegisterAttempt? && attempts[i + 1].registration.username == name
        && register(RunAttempts(users, attempts[..i + 1], authenticate, register, sign), attempts[i + 1].registration).Ok?;
    }
  }
}
