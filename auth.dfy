/** The account and session store behind the `/api/auth` routes (`server/routes/auth.ts`):
    a list of users, each kept with its (mock) password hash, and a map from session id to
    user id. Session ids, user ids and clocks are supplied by the caller; the e-mail check
    of the validation library is the parameter `isEmail`. */
module Auth {
  import opened Common

  datatype CityState = CityState(city: string, state: string)

  /** A user as the routes send it back: every stored field except the password. */
  datatype Profile = Profile(
    id: string,
    email: string,
    phone: Option<string>,
    name: string,
    role: UserType,
    verified: bool,
    createdAt: Timestamp,
    location: Option<CityState>,
    avatar: string,
    profession: Option<string>,
    categories: Option<seq<string>>,
    serviceRadius: Option<int>,
    rating: Option<int>,
    reviewCount: Option<int>,
    preferredPaymentMethod: Option<string>)

  /** A stored user: the profile and the password hash. */
  datatype User = User(profile: Profile, password: string)

  /** The mock hash: the password behind a fixed prefix. */
  function HashPassword(password: string): (h: string)
    ensures |h| == |password| + 7 && h[..7] == "hashed_" && h[7..] == password
  {
    "hashed_" + password
  }

  function VerifyPassword(password: string, hash: string): (ok: bool)
    ensures ok <==> |hash| >= 7 && hash[..7] == "hashed_" && hash[7..] == password
  {
    HashPassword(password) == hash
  }

  /** The hash round-trips, tells passwords apart, and an empty hash (the one phone-login
      users get) matches no password at all. */
  lemma HashRoundTrip(p: string, q: string)
    ensures VerifyPassword(p, HashPassword(p))
    ensures VerifyPassword(q, HashPassword(p)) <==> q == p
    ensures !VerifyPassword(q, "")
  {
    if VerifyPassword(q, HashPassword(p)) {
      assert HashPassword(q)[7..] == q;
      assert HashPassword(p)[7..] == p;
    }
    assert |HashPassword(q)| >= 7;
  }

  /** An optional key of a body: absent, present with a value of the expected shape, or
      present with anything else (`null`, a number, an object missing a key). */
  datatype Field<+T> = Absent | Given(value: T) | Mistyped

  /** The value of an optional key that passed validation. */
  function FieldValue<T>(f: Field<T>): (r: Option<T>)
    ensures r.Some? <==> f.Given?
    ensures r.Some? ==> r.value == f.value
  {
    if f.Given? then Some(f.value) else None
  }

  /** The body of a signup before validation. A required key that is missing or not a
      string is `None`; the optional `phone` and `location` are `Field`s. */
  datatype SignupBody = SignupBody(
    email: Option<string>,
    phone: Field<string>,
    password: Option<string>,
    name: Option<string>,
    kind: Option<string>,
    location: Field<CityState>)

  /** A signup that passed validation. */
  datatype SignupData = SignupData(
    email: string, phone: Option<string>, password: string, name: string, role: UserType, location: Option<CityState>)

  datatype LoginBody = LoginBody(email: Option<string>, password: Option<string>)
  datatype PhoneLoginBody = PhoneLoginBody(phone: Option<string>, code: Option<string>)

  function ParseRole(kind: string): (r: Option<UserType>)
    ensures r == Some(Client) <==> kind == "client"
    ensures r == Some(Professional) <==> kind == "professional"
    ensures r.None? <==> kind != "client" && kind != "professional"
  {
    if kind == "client" then Some(Client)
    else if kind == "professional" then Some(Professional)
    else None
  }

  /** The signup schema: a valid e-mail, a password of at least 6 and a name of at least 2
      characters, one of the two account types, and a phone and a location that are
      either absent or of the right shape. */
  function ParseSignup(body: SignupBody, isEmail: string -> bool): (r: Option<SignupData>)
    ensures r.Some? <==>
      && body.email.Some? && isEmail(body.email.value)
      && body.password.Some? && |body.password.value| >= 6
      && body.name.Some? && |body.name.value| >= 2
      && body.kind.Some? && (body.kind.value == "client" || body.kind.value == "professional")
      && !body.phone.Mistyped? && !body.location.Mistyped?
    ensures r.Some? ==>
      && r.value.email == body.email.value && r.value.password == body.password.value
      && r.value.name == body.name.value
      && r.value.phone == FieldValue(body.phone) && r.value.location == FieldValue(body.location)
      && (r.value.role == Client <==> body.kind.value == "client")
  {
    if body.email.None? || !isEmail(body.email.value) then None
    else if body.phone.Mistyped? then None
    else if body.password.None? || |body.password.value| < 6 then None
    else if body.name.None? || |body.name.value| < 2 then None
    else if body.kind.None? then None
    else if body.location.Mistyped? then None
    else
      match ParseRole(body.kind.value)
      case None => None
      case Some(role) =>
        Some(SignupData(body.email.value, FieldValue(body.phone), body.password.value, body.name.value, role,
                        FieldValue(body.location)))
  }

  /** The login schema: a valid e-mail and any password. */
  function ParseLogin(body: LoginBody, isEmail: string -> bool): (r: Option<(string, string)>)
    ensures r.Some? <==> body.email.Some? && isEmail(body.email.value) && body.password.Some?
    ensures r.Some? ==> r.value == (body.email.value, body.password.value)
  {
    if body.email.Some? && isEmail(body.email.value) && body.password.Some?
    then Some((body.email.value, body.password.value)) else None
  }

  /** The phone-login schema: any phone and a code of exactly 6 characters. */
  function ParsePhoneLogin(body: PhoneLoginBody): (r: Option<(string, string)>)
    ensures r.Some? <==> body.phone.Some? && body.code.Some? && |body.code.value| == 6
    ensures r.Some? ==> r.value == (body.phone.value, body.code.value)
  {
    if body.phone.Some? && body.code.Some? && |body.code.value| == 6
    then Some((body.phone.value, body.code.value)) else None
  }

  function EmailIs(email: string): User -> bool {
    (u: User) => u.profile.email == email
  }

  function PhoneIs(phone: string): User -> bool {
    (u: User) => u.profile.phone == Some(phone)
  }

  function IdIs(id: string): User -> bool {
    (u: User) => u.profile.id == id
  }

  /** The user a signup creates, with the defaults of its account type. */
  function NewUser(data: SignupData, freshId: string, now: Timestamp): (u: User)
    ensures u.password == HashPassword(data.password) && !u.profile.verified && u.profile.createdAt == now
    ensures u.profile.id == freshId && u.profile.email == data.email && u.profile.role == data.role
    ensures u.profile.name == data.name && u.profile.phone == data.phone && u.profile.location == data.location
    ensures u.profile.avatar == "/placeholder.svg"
    ensures u.profile.role == Professional <==> u.profile.serviceRadius == Some(10)
    ensures u.profile.role == Professional ==>
      && u.profile.profession == Some("") && u.profile.categories == Some([])
      && u.profile.rating == Some(0) && u.profile.reviewCount == Some(0) && u.profile.preferredPaymentMethod.None?
    ensures u.profile.role == Client <==> u.profile.preferredPaymentMethod == Some("")
    ensures u.profile.role == Client ==>
      && u.profile.profession.None? && u.profile.categories.None? && u.profile.serviceRadius.None?
      && u.profile.rating.None? && u.profile.reviewCount.None?
  {
    var pro := data.role == Professional;
    User(Profile(
      freshId, data.email, data.phone, data.name, data.role, false, now, data.location, "/placeholder.svg",
      if pro then Some("") else None,
      if pro then Some([]) else None,
      if pro then Some(10) else None,
      if pro then Some(0) else None,
      if pro then Some(0) else None,
      if pro then None else Some("")),
      HashPassword(data.password))
  }

  /** The user a phone login creates when no user has that phone. */
  function PhoneUser(phone: string, freshId: string, now: Timestamp): (u: User)
    ensures u.profile.id == freshId && u.profile.phone == Some(phone) && u.profile.email == phone + "@phone.temp"
    ensures u.profile.name == "Usuário" && u.profile.role == Client && u.profile.verified && u.profile.createdAt == now
    ensures u.password == ""
  {
    User(Profile(
      freshId, phone + "@phone.temp", Some(phone), "Usuário", Client, true, now, None, "/placeholder.svg",
      None, None, None, None, None, None),
      "")
  }

  /** The body of a profile update, each field `None` when absent. `id` and `password` may
      be sent but are dropped. */
  datatype ProfilePatch = ProfilePatch(
    id: Option<string>,
    password: Option<string>,
    email: Option<string>,
    phone: Option<Option<string>>,
    name: Option<string>,
    role: Option<UserType>,
    verified: Option<bool>,
    createdAt: Option<Timestamp>,
    location: Option<Option<CityState>>,
    avatar: Option<string>,
    profession: Option<Option<string>>,
    categories: Option<Option<seq<string>>>,
    serviceRadius: Option<Option<int>>,
    rating: Option<Option<int>>,
    reviewCount: Option<Option<int>>,
    preferredPaymentMethod: Option<Option<string>>)

  /** An update that names no field other than `id` and `password`. */
  predicate KeepsEverything(patch: ProfilePatch) {
    patch == ProfilePatch(patch.id, patch.password, None, None, None, None, None, None, None, None,
                          None, None, None, None, None, None)
  }

  /** `{ ...user, ...updates }` once `updates.password` and `updates.id` are deleted. */
  function ApplyProfilePatch(u: User, patch: ProfilePatch): (r: User)
    ensures r.profile.id == u.profile.id && r.password == u.password
    ensures r.profile.email == patch.email.GetOr(u.profile.email)
    ensures r.profile.phone == patch.phone.GetOr(u.profile.phone)
    ensures r.profile.name == patch.name.GetOr(u.profile.name)
    ensures r.profile.role == patch.role.GetOr(u.profile.role)
    ensures r.profile.verified == patch.verified.GetOr(u.profile.verified)
    ensures r.profile.createdAt == patch.createdAt.GetOr(u.profile.createdAt)
    ensures r.profile.location == patch.location.GetOr(u.profile.location)
    ensures r.profile.avatar == patch.avatar.GetOr(u.profile.avatar)
    ensures r.profile.profession == patch.profession.GetOr(u.profile.profession)
    ensures r.profile.categories == patch.categories.GetOr(u.profile.categories)
    ensures r.profile.serviceRadius == patch.serviceRadius.GetOr(u.profile.serviceRadius)
    ensures r.profile.rating == patch.rating.GetOr(u.profile.rating)
    ensures r.profile.reviewCount == patch.reviewCount.GetOr(u.profile.reviewCount)
    ensures r.profile.preferredPaymentMethod == patch.preferredPaymentMethod.GetOr(u.profile.preferredPaymentMethod)
    ensures KeepsEverything(patch) ==> r == u
  {
    var p := u.profile;
    User(Profile(
      p.id,
      patch.email.GetOr(p.email),
      patch.phone.GetOr(p.phone),
      patch.name.GetOr(p.name),
      patch.role.GetOr(p.role),
      patch.verified.GetOr(p.verified),
      patch.createdAt.GetOr(p.createdAt),
      patch.location.GetOr(p.location),
      patch.avatar.GetOr(p.avatar),
      patch.profession.GetOr(p.profession),
      patch.categories.GetOr(p.categories),
      patch.serviceRadius.GetOr(p.serviceRadius),
      patch.rating.GetOr(p.rating),
      patch.reviewCount.GetOr(p.reviewCount),
      patch.preferredPaymentMethod.GetOr(p.preferredPaymentMethod)),
      u.password)
  }

  /** A profile update drops `id` and `password` whatever the body says, and applying the
      same update twice is applying it once. */
  lemma ProfilePatchKeepsIdentity(u: User, patch: ProfilePatch, id: string, password: string)
    ensures ApplyProfilePatch(u, patch.(id := Some(id), password := Some(password))) == ApplyProfilePatch(u, patch)
    ensures ApplyProfilePatch(ApplyProfilePatch(u, patch), patch) == ApplyProfilePatch(u, patch)
  {
  }

  /** After a signup with a new e-mail, a login with that e-mail finds the new user and
      its password verifies. */
  lemma LoginAfterSignup(users: seq<User>, data: SignupData, freshId: string, now: Timestamp)
    requires FindIndex(users, EmailIs(data.email)).None?
    ensures var after := users + [NewUser(data, freshId, now)];
      && FindIndex(after, EmailIs(data.email)) == Some(|users|)
      && VerifyPassword(data.password, after[|users|].password)
  {
    FindIndexAppend(users, NewUser(data, freshId, now), EmailIs(data.email));
  }

  /** A user created by phone login has the empty hash, so no password login succeeds. */
  lemma PhoneUserHasNoPassword(phone: string, freshId: string, now: Timestamp, q: string)
    ensures !VerifyPassword(q, PhoneUser(phone, freshId, now).password)
  {
    HashRoundTrip(q, q);
  }

  class AuthStore {
    var users: seq<User>
    var sessions: map<string, string>

    constructor ()
      ensures users == [] && sessions == map[]
    {
      users := [];
      sessions := map[];
    }

    /** The user id a session cookie resolves to: 401 without a (non-empty) cookie or for
        an unknown session. */
    function SessionUser(cookie: Option<string>): (r: Response<string>)
      reads this
      ensures r.Ok? || r.Unauthorized?
      ensures r.Ok? <==> cookie.Some? && cookie.value != "" && cookie.value in sessions && sessions[cookie.value] != ""
      ensures r.Ok? ==> r.value == sessions[cookie.value]
      ensures (cookie.None? || cookie.value == "") ==> r == Unauthorized("Não autenticado")
      ensures cookie.Some? && cookie.value != "" && (cookie.value !in sessions || sessions[cookie.value] == "") ==>
        r == Unauthorized("Sessão inválida")
    {
      if cookie.None? || cookie.value == "" then Unauthorized("Não autenticado")
      else if cookie.value !in sessions || sessions[cookie.value] == "" then Unauthorized("Sessão inválida")
      else Ok(sessions[cookie.value])
    }

    /** `GET /api/auth/me` */
    function Me(cookie: Option<string>): (r: Response<Profile>)
      reads this
      ensures r.Ok? <==> SessionUser(cookie).Ok? && exists k :: 0 <= k < |users| && users[k].profile.id == SessionUser(cookie).value
      ensures r.Ok? ==> r.value.id == SessionUser(cookie).value
      ensures r.Ok? ==> exists k :: 0 <= k < |users| && users[k].profile == r.value && (forall j :: 0 <= j < k ==> users[j].profile.id != r.value.id)
      ensures !r.Ok? ==> r.Unauthorized?
      ensures SessionUser(cookie).Ok? && !r.Ok? ==> r == Unauthorized("Usuário não encontrado")
    {
      var who := SessionUser(cookie);
      if !who.Ok? then Unauthorized(who.message)
      else
        match FindIndex(users, IdIs(who.value))
        case None => Unauthorized("Usuário não encontrado")
        case Some(k) => Ok(users[k].profile)
    }

    /** `POST /api/auth/signup` */
    method Signup(body: SignupBody, isEmail: string -> bool, freshId: string, sessionId: string, now: Timestamp)
      returns (res: Response<Profile>)
      modifies this
      ensures match ParseSignup(body, isEmail)
        case None => res == BadRequest("Dados inválidos") && unchanged(this)
        case Some(data) =>
          if FindIndex(old(users), EmailIs(data.email)).Some? then
            res == BadRequest("Usuário já existe") && unchanged(this)
          else
            var u := NewUser(data, freshId, now);
            && users == old(users) + [u]
            && sessions == old(sessions)[sessionId := freshId]
            && res == Ok(u.profile)
      ensures res.Ok? && sessionId != "" && freshId != "" && FindIndex(old(users), IdIs(freshId)).None? ==>
        Me(Some(sessionId)) == res
    {
      var parsed := ParseSignup(body, isEmail);
      if parsed.None? {
        return BadRequest("Dados inválidos");
      }
      var data := parsed.value;
      if FindIndex(users, EmailIs(data.email)).Some? {
        return BadRequest("Usuário já existe");
      }
      var u := NewUser(data, freshId, now);
      if FindIndex(users, IdIs(freshId)).None? {
        FindIndexAppend(users, u, IdIs(freshId));
      }
      users := users + [u];
      sessions := sessions[sessionId := freshId];
      res := Ok(u.profile);
    }

    /** `POST /api/auth/login` */
    method Login(body: LoginBody, isEmail: string -> bool, sessionId: string) returns (res: Response<Profile>)
      modifies this
      ensures users == old(users)
      ensures match ParseLogin(body, isEmail)
        case None => res == BadRequest("Dados inválidos") && sessions == old(sessions)
        case Some((email, password)) =>
          match FindIndex(users, EmailIs(email))
          case None => res == Unauthorized("Credenciais inválidas") && sessions == old(sessions)
          case Some(k) =>
            if VerifyPassword(password, users[k].password) then
              res == Ok(users[k].profile) && sessions == old(sessions)[sessionId := users[k].profile.id]
            else
              res == Unauthorized("Credenciais inválidas") && sessions == old(sessions)
    {
      var parsed := ParseLogin(body, isEmail);
      if parsed.None? {
        return BadRequest("Dados inválidos");
      }
      var (email, password) := parsed.value;
      var found := FindIndex(users, EmailIs(email));
      if found.None? || !VerifyPassword(password, users[found.value].password) {
        return Unauthorized("Credenciais inválidas");
      }
      var u := users[found.value];
      sessions := sessions[sessionId := u.profile.id];
      res := Ok(u.profile);
    }

    /** `POST /api/auth/phone-login`: the only accepted code is `"123456"`. */
    method PhoneLogin(body: PhoneLoginBody, freshId: string, sessionId: string, now: Timestamp)
      returns (res: Response<Profile>)
      modifies this
      ensures match ParsePhoneLogin(body)
        case None => res == BadRequest("Dados inválidos") && unchanged(this)
        case Some((phone, code)) =>
          if code != "123456" then res == Unauthorized("Código inválido") && unchanged(this)
          else
            match FindIndex(old(users), PhoneIs(phone))
            case Some(k) =>
              && users == old(users)
              && res == Ok(users[k].profile)
              && sessions == old(sessions)[sessionId := users[k].profile.id]
            case None =>
              var u := PhoneUser(phone, freshId, now);
              && users == old(users) + [u]
              && res == Ok(u.profile)
              && sessions == old(sessions)[sessionId := freshId]
    {
      var parsed := ParsePhoneLogin(body);
      if parsed.None? {
        return BadRequest("Dados inválidos");
      }
      var (phone, code) := parsed.value;
      if code != "123456" {
        return Unauthorized("Código inválido");
      }
      var found := FindIndex(users, PhoneIs(phone));
      var u: User;
      if found.Some? {
        u := users[found.value];
      } else {
        u := PhoneUser(phone, freshId, now);
        users := users + [u];
      }
      sessions := sessions[sessionId := u.profile.id];
      res := Ok(u.profile);
    }

    /** `POST /api/auth/logout`: the session of the cookie stops resolving. */
    method Logout(cookie: Option<string>) returns (res: Response<string>)
      modifies this
      ensures users == old(users)
      ensures res == Ok("Logout realizado com sucesso")
      ensures sessions == if cookie.Some? && cookie.value != "" then old(sessions) - {cookie.value} else old(sessions)
      ensures cookie.Some? && cookie.value != "" ==> Me(cookie) == Unauthorized("Sessão inválida")
      ensures !(cookie.Some? && cookie.value != "") ==> Me(cookie) == Unauthorized("Não autenticado")
    {
      if cookie.Some? && cookie.value != "" {
        sessions := sessions - {cookie.value};
      }
      res := Ok("Logout realizado com sucesso");
    }

    /** `PUT /api/auth/profile` */
    method UpdateProfile(cookie: Option<string>, patch: ProfilePatch) returns (res: Response<Profile>)
      modifies this
      ensures sessions == old(sessions) && |users| == |old(users)|
      ensures !SessionUser(cookie).Ok? ==> res == Unauthorized(SessionUser(cookie).message) && users == old(users)
      ensures SessionUser(cookie).Ok? ==>
        match FindIndex(old(users), IdIs(SessionUser(cookie).value))
        case None => res == NotFound("Usuário não encontrado") && users == old(users)
        case Some(k) =>
          && users == old(users)[k := ApplyProfilePatch(old(users)[k], patch)]
          && res == Ok(users[k].profile)
          && users[k].profile.id == old(users)[k].profile.id
          && users[k].password == old(users)[k].password
    {
      var who := SessionUser(cookie);
      if !who.Ok? {
        return Unauthorized(who.message);
      }
      var found := FindIndex(users, IdIs(who.value));
      if found.None? {
        return NotFound("Usuário não encontrado");
      }
      var k := found.value;
      users := users[k := ApplyProfilePatch(users[k], patch)];
      res := Ok(users[k].profile);
    }
  }
}
