/** `POST /api/auth/register` and `POST /api/auth/login` over the `users`
    table, whose `email` column is unique. The signed token is represented
    by the claims it carries; passwords are stored and compared as given. */
module Auth {
  import opened Common

  const DefaultRole := "operator"
  const TokenLifetimeSeconds := 3600
  const RegisteredMessage := "Usuário registrado com sucesso"
  const RequiredFieldsMessage := "Nome, email e senha são obrigatórios."
  const EmailTakenMessage := "Email já registrado."
  const InvalidCredentialsMessage := "Credenciais inválidas."

  /** A row of `users`. */
  datatype User = User(id: nat, name: string, email: string, password: string, role: string)

  /** The columns the insert returns: everything but the password. */
  datatype PublicUser = PublicUser(id: nat, name: string, email: string, role: string)

  datatype RegisterRequest = RegisterRequest(
    name: Option<string>, email: Option<string>, password: Option<string>, role: Option<string>)

  datatype RegisterResponse =
    | Registered(message: string, user: PublicUser)
    | RegisterBadRequest(message: string)
    | EmailTaken(message: string)
  {
    function StatusCode(): nat
    {
      match this
      case Registered(_, _) => 201
      case RegisterBadRequest(_) => 400
      case EmailTaken(_) => 409
    }
  }

  /** The payload of the access token, with its issue time and its expiry
      in seconds since the epoch. */
  datatype Claims = Claims(id: nat, email: string, role: string, issuedAt: int, expiresAt: int)

  datatype LoginResponse = LoggedIn(accessToken: Claims) | LoginFailed(message: string)
  {
    function StatusCode(): nat
    {
      if LoggedIn? then 200 else 400
    }
  }

  /** `role || 'operator'`. */
  function RoleOrDefault(role: Option<string>): (r: string)
    ensures Present(role) ==> r == role.value
    ensures !Present(role) ==> r == DefaultRole
  {
    if Present(role) then role.value else DefaultRole
  }

  /** The table is keyed by its unique email; ids come from a serial
      counter that is ahead of every row. */
  predicate UsersValid(users: map<string, User>, nextId: nat)
  {
    && (forall e :: e in users ==> users[e].email == e && users[e].id < nextId)
    && (forall e1, e2 :: e1 in users && e2 in users && e1 != e2 ==> users[e1].id != users[e2].id)
  }

  /** `POST /api/auth/login`: succeeds exactly when a user has that email
      and the password is the stored one, and then issues that user's id,
      email and role for one hour. Both failures give the same answer. */
  function Login(users: map<string, User>, email: Option<string>, password: Option<string>, nowSeconds: int)
    : (r: LoginResponse)
    ensures r.LoggedIn? <==> email.Some? && email.value in users && password == Some(users[email.value].password)
    ensures r.LoggedIn? ==>
      var u := users[email.value];
      r.accessToken == Claims(u.id, u.email, u.role, nowSeconds, nowSeconds + 3600)
    ensures r.LoginFailed? ==> r == LoginFailed(InvalidCredentialsMessage) && r.StatusCode() == 400
  {
    if email.None? || email.value !in users then
      LoginFailed(InvalidCredentialsMessage)
    else
      var user := users[email.value];
      if password != Some(user.password) then
        LoginFailed(InvalidCredentialsMessage)
      else
        LoggedIn(Claims(user.id, user.email, user.role, nowSeconds, nowSeconds + TokenLifetimeSeconds))
  }

  /** The `users` table. */
  class UserTable {
    var users: map<string, User>
    var nextId: nat

    ghost predicate Valid()
      reads this
    {
      UsersValid(users, nextId)
    }

    constructor ()
      ensures Valid() && users == map[] && nextId == 1
    {
      users := map[];
      nextId := 1;
    }

    /** `POST /api/auth/register`. A duplicate email is refused by the
        unique constraint after the serial id has been drawn. */
    method Register(req: RegisterRequest) returns (resp: RegisterResponse)
      requires Valid()
      modifies this
      ensures Valid()
      ensures !(Present(req.name) && Present(req.email) && Present(req.password)) ==>
        && resp == RegisterBadRequest(RequiredFieldsMessage)
        && users == old(users) && nextId == old(nextId)
      ensures Present(req.name) && Present(req.email) && Present(req.password) && req.email.value in old(users) ==>
        && resp == EmailTaken(EmailTakenMessage) && resp.StatusCode() == 409
        && users == old(users) && nextId == old(nextId) + 1
      ensures Present(req.name) && Present(req.email) && Present(req.password) && req.email.value !in old(users) ==>
        && var role := RoleOrDefault(req.role);
        && users == old(users)[req.email.value := User(old(nextId), req.name.value, req.email.value, req.password.value, role)]
        && resp == Registered(RegisteredMessage, PublicUser(old(nextId), req.name.value, req.email.value, role))
        && nextId == old(nextId) + 1
      // a registered user can log in with the same email and password and
      // receives the role it was given, or the default one
      ensures resp.Registered? ==>
        forall now :: Login(users, req.email, req.password, now)
          == LoggedIn(Claims(resp.user.id, resp.user.email, RoleOrDefault(req.role), now, now + 3600))
    {
      if !Present(req.name) || !Present(req.email) || !Present(req.password) {
        return RegisterBadRequest(RequiredFieldsMessage);
      }
      var name, email, password := req.name.value, req.email.value, req.password.value;
      var role := RoleOrDefault(req.role);
      var id := nextId;
      nextId := nextId + 1;
      if email in users {
        return EmailTaken(EmailTakenMessage);
      }
      users := users[email := User(id, name, email, password, role)];
      resp := Registered(RegisteredMessage, PublicUser(id, name, email, role));
    }
  }
}
