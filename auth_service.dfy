/** Signing in, inviting and creating users, the current-user lookup, logout and
    the refresh gate. Password hashing, token signing and the temporary password
    are outside the model: their outputs arrive as parameters. */
module AuthService {
  import opened Schema
  import Database

  /** The configured administrator credentials (environment variables). */
  datatype AuthConfig = AuthConfig(adminEmail: string, adminPassword: string)

  datatype SignInDto = SignInDto(email: string, password: string)

  /** The claims both issued tokens carry. */
  datatype Claims = Claims(sub: int, email: string, role: Role)

  datatype InviteUserDto = InviteUserDto(email: string)

  /** What an invitation returns to the inviter. */
  datatype Invitation = Invitation(email: string, role: Role, temporaryPassword: string)

  datatype CreateUserDto = CreateUserDto(email: string, firstName: string, lastName: string, role: Role)

  datatype NewUser = NewUser(id: int, email: string, role: Role, profile: Profile)

  /** What the current-user lookup returns. */
  datatype Me = Me(id: int, email: string, role: Role, firstName: string, lastName: string)

  // ---- Sign in -------------------------------------------------------------

  /** The branch logic of signIn: the configured administrator signs in as id -1
      without a user row; anyone else needs a row with that email and a password
      that `passwordMatches` (the hash comparison) accepts. */
  ghost function Authenticate(s: Snapshot, cfg: AuthConfig, dto: SignInDto,
                              passwordMatches: (string, string) -> bool): (r: Result<Claims>)
    ensures dto.email == cfg.adminEmail && dto.password == cfg.adminPassword ==>
      r == Ok(Claims(AdminId, cfg.adminEmail, SuperAdmin))
    ensures r.Err? ==> r.error == Forbidden
    ensures !(dto.email == cfg.adminEmail && dto.password == cfg.adminPassword) && !EmailTaken(s, dto.email) ==>
      r.Err?
    ensures r.Ok? && !(dto.email == cfg.adminEmail && dto.password == cfg.adminPassword) ==>
      && r.value.sub in s.users
      && s.users[r.value.sub].email == dto.email
      && passwordMatches(dto.password, s.users[r.value.sub].password)
      && r.value == Claims(r.value.sub, dto.email, s.users[r.value.sub].role)
  {
    if dto.email == cfg.adminEmail && dto.password == cfg.adminPassword then
      Ok(Claims(AdminId, cfg.adminEmail, SuperAdmin))
    else if !EmailTaken(s, dto.email) then Err(Forbidden)
    else
      var id :| id in s.users && s.users[id].email == dto.email;
      if !passwordMatches(dto.password, s.users[id].password) then Err(Forbidden)
      else Ok(Claims(id, s.users[id].email, s.users[id].role))
  }

  /** With unique emails, a user who gives its own email and a matching password
      gets tokens for its own id and role. */
  lemma SignInFindsTheUser(s: Snapshot, cfg: AuthConfig, dto: SignInDto,
                           passwordMatches: (string, string) -> bool, id: int)
    requires Valid(s) && id in s.users && s.users[id].email == dto.email
    requires passwordMatches(dto.password, s.users[id].password)
    requires dto.email != cfg.adminEmail || dto.password != cfg.adminPassword
    ensures Authenticate(s, cfg, dto, passwordMatches) == Ok(Claims(id, dto.email, s.users[id].role))
  {
  }

  /** signIn: a successful sign-in of a stored user writes the hash of the new refresh
      token into that user's row and nowhere else; the administrator's and every failed
      sign-in leave the store alone. */
  ghost function SignInStep(s: Snapshot, cfg: AuthConfig, dto: SignInDto,
                            passwordMatches: (string, string) -> bool, rtHash: string): (t: Transition<Claims>)
    ensures t.result == Authenticate(s, cfg, dto, passwordMatches)
    ensures t.result.Err? || t.result.value.sub == AdminId ==> t.next == s
    ensures t.result.Ok? && t.result.value.sub != AdminId ==>
      t.result.value.sub in s.users &&
      t.next == s.(users := s.users[t.result.value.sub :=
                                    s.users[t.result.value.sub].(refreshToken := Some(rtHash))])
  {
    var r := Authenticate(s, cfg, dto, passwordMatches);
    if r.Err? || r.value.sub == AdminId then Transition(r, s)
    else
      var id := r.value.sub;
      Transition(r, s.(users := s.users[id := s.users[id].(refreshToken := Some(rtHash))]))
  }

  lemma SignInPreservesValid(s: Snapshot, cfg: AuthConfig, dto: SignInDto,
                             passwordMatches: (string, string) -> bool, rtHash: string)
    requires Valid(s)
    ensures Valid(SignInStep(s, cfg, dto, passwordMatches, rtHash).next)
  {
  }

  // ---- Invite --------------------------------------------------------------

  /** The roles an inviter may hand out, in the order the source lists them. */
  function AllowedInviteeRoles(inviter: Role): (rs: seq<Role>)
    ensures |rs| > 0 <==> inviter == SuperAdmin || inviter == Owner
    ensures SuperAdmin !in rs
    ensures inviter == SuperAdmin ==> rs == [Owner]
    ensures inviter == Owner ==> rs == [Manager, Staff]
  {
    match inviter
    case SuperAdmin => [Owner]
    case Owner => [Manager, Staff]
    case _ => []
  }

  /** The role gate of inviteUser and the role the invitee gets: the first allowed one. */
  function InviteeRole(s: Snapshot, inviterId: int): (r: Result<Role>)
    ensures r.Ok? <==> inviterId in s.users &&
                       (s.users[inviterId].role == SuperAdmin || s.users[inviterId].role == Owner)
    ensures r.Err? ==> r.error == Forbidden
    ensures r.Ok? ==> |AllowedInviteeRoles(s.users[inviterId].role)| > 0 &&
                      r.value == AllowedInviteeRoles(s.users[inviterId].role)[0]
  {
    if inviterId !in s.users then Err(Forbidden)
    else
      var role := s.users[inviterId].role;
      if role != SuperAdmin && role != Owner then Err(Forbidden)
      else Ok(AllowedInviteeRoles(role)[0])
  }

  /** A super admin invites owners; an owner invites managers and never staff,
      although staff is on its allowed list. */
  lemma InviteeRoleChoice(s: Snapshot, inviterId: int)
    requires inviterId in s.users
    ensures s.users[inviterId].role == SuperAdmin ==> InviteeRole(s, inviterId) == Ok(Owner)
    ensures s.users[inviterId].role == Owner ==>
      InviteeRole(s, inviterId) == Ok(Manager) && Staff in AllowedInviteeRoles(Owner)
    ensures InviteeRole(s, inviterId) != Ok(Staff) && InviteeRole(s, inviterId) != Ok(SuperAdmin)
  {
  }

  /** The token-only administrator has no row, so it cannot invite anyone. */
  lemma AdminCannotInvite(s: Snapshot)
    requires Valid(s)
    ensures InviteeRole(s, AdminId) == Err(Forbidden)
  {
  }

  /** inviteUser: after the gate, a row with the first allowed role, the temporary
      password's hash and the profile "Invited User" is inserted; a taken email
      violates the unique constraint, which the service does not catch. */
  function InviteStep(s: Snapshot, inviterId: int, dto: InviteUserDto,
                      tempPassword: string, tempHash: string, newId: int): (t: Transition<Invitation>)
    requires newId !in s.users
    ensures t.result.Err? ==> t.next == s
    ensures t.result.Ok? <==> InviteeRole(s, inviterId).Ok? && !EmailTaken(s, dto.email)
    ensures InviteeRole(s, inviterId).Err? ==> t.result == Err(Forbidden)
    ensures InviteeRole(s, inviterId).Ok? && EmailTaken(s, dto.email) ==> t.result == Err(Unhandled)
    ensures t.result.Ok? ==>
      && InviteeRole(s, inviterId).Ok?
      && t.result.value == Invitation(dto.email, InviteeRole(s, inviterId).value, tempPassword)
      && t.next == s.(users := s.users[newId :=
           User(dto.email, tempHash, InviteeRole(s, inviterId).value, None,
                Some(Profile("Invited", "User", None)))])
  {
    match InviteeRole(s, inviterId)
    case Err(e) => Transition(Err(e), s)
    case Ok(role) =>
      if EmailTaken(s, dto.email) then Transition(Err(Unhandled), s)
      else
        var user := User(dto.email, tempHash, role, None, Some(Profile("Invited", "User", None)));
        Transition(Ok(Invitation(dto.email, role, tempPassword)), s.(users := s.users[newId := user]))
  }

  lemma InvitePreservesValid(s: Snapshot, inviterId: int, dto: InviteUserDto,
                             tempPassword: string, tempHash: string, newId: int)
    requires Valid(s) && newId > 0 && newId !in s.users
    ensures Valid(InviteStep(s, inviterId, dto, tempPassword, tempHash, newId).next)
  {
  }

  // ---- Current user, logout, refresh ---------------------------------------

  /** getMe: a synthetic record for the administrator, Forbidden for a missing row;
      a row without a profile makes the service dereference nothing and fail. */
  function GetMe(s: Snapshot, cfg: AuthConfig, userId: int): (r: Result<Me>)
    ensures userId == AdminId ==> r == Ok(Me(AdminId, cfg.adminEmail, SuperAdmin, "Super", "Admin"))
    ensures userId != AdminId && userId !in s.users ==> r == Err(Forbidden)
    ensures userId != AdminId && r.Ok? ==>
      && userId in s.users && s.users[userId].profile.Some?
      && r.value == Me(userId, s.users[userId].email, s.users[userId].role,
                       s.users[userId].profile.value.firstName, s.users[userId].profile.value.lastName)
    ensures userId != AdminId && userId in s.users && s.users[userId].profile.None? ==> r == Err(Unhandled)
  {
    if userId == AdminId then Ok(Me(AdminId, cfg.adminEmail, SuperAdmin, "Super", "Admin"))
    else if userId !in s.users then Err(Forbidden)
    else
      var u := s.users[userId];
      match u.profile
      case None => Err(Unhandled)
      case Some(p) => Ok(Me(userId, u.email, u.role, p.firstName, p.lastName))
  }

  /** logout: clears the refresh hash of that one user if it has one. */
  function LogoutStep(s: Snapshot, userId: int): (t: Transition<()>)
    ensures t.result == Ok(())
    ensures t.next.brands == s.brands && t.next.locations == s.locations && t.next.staff == s.staff
    ensures t.next.users.Keys == s.users.Keys
    ensures forall id :: id in s.users && id != userId ==> t.next.users[id] == s.users[id]
    ensures userId in s.users ==> t.next.users[userId] == s.users[userId].(refreshToken := None)
  {
    if userId in s.users && s.users[userId].refreshToken.Some? then
      Transition(Ok(()), s.(users := s.users[userId := s.users[userId].(refreshToken := None)]))
    else Transition(Ok(()), s)
  }

  /** Logging out twice is logging out once. */
  lemma LogoutIdempotent(s: Snapshot, userId: int)
    ensures LogoutStep(LogoutStep(s, userId).next, userId) == LogoutStep(s, userId)
  {
  }

  lemma LogoutPreservesValid(s: Snapshot, userId: int)
    requires Valid(s)
    ensures Valid(LogoutStep(s, userId).next)
  {
  }

  /** refreshTokens: refused unless the user exists and holds a refresh hash. On
      success it returns nothing; no new tokens are issued. */
  function RefreshTokens(s: Snapshot, userId: int): (r: Result<()>)
    ensures r.Ok? <==> userId in s.users && Truthy(s.users[userId].refreshToken)
    ensures r.Err? ==> r.error == Forbidden
  {
    if userId !in s.users || !Truthy(s.users[userId].refreshToken) then Err(Forbidden) else Ok(())
  }

  /** After logout the refresh gate is closed. */
  lemma NoRefreshAfterLogout(s: Snapshot, userId: int)
    ensures RefreshTokens(LogoutStep(s, userId).next, userId) == Err(Forbidden)
  {
  }

  // ---- Create user ---------------------------------------------------------

  /** createUser: only a super admin (the controller's gate); a taken email is
      Forbidden; otherwise exactly one row with the given email, role, profile and
      password hash is added. */
  function CreateUserStep(s: Snapshot, callerRole: Role, dto: CreateUserDto, passwordHash: string,
                          newId: int): (t: Transition<NewUser>)
    requires newId !in s.users
    ensures t.result.Err? <==> callerRole != SuperAdmin || EmailTaken(s, dto.email)
    ensures t.result.Err? ==> t.result.error == Forbidden && t.next == s
    ensures t.result.Ok? ==>
      && t.result.value == NewUser(newId, dto.email, dto.role, Profile(dto.firstName, dto.lastName, None))
      && t.next == s.(users := s.users[newId :=
           User(dto.email, passwordHash, dto.role, None, Some(t.result.value.profile))])
  {
    if callerRole != SuperAdmin || EmailTaken(s, dto.email) then Transition(Err(Forbidden), s)
    else
      var profile := Profile(dto.firstName, dto.lastName, None);
      var user := User(dto.email, passwordHash, dto.role, None, Some(profile));
      Transition(Ok(NewUser(newId, dto.email, dto.role, profile)), s.(users := s.users[newId := user]))
  }

  /** A created user can sign in at once with its email and password. */
  lemma CreatedUserCanSignIn(s: Snapshot, dto: CreateUserDto, password: string, passwordHash: string,
                             newId: int, cfg: AuthConfig, passwordMatches: (string, string) -> bool)
    requires Valid(s) && newId > 0 && newId !in s.users && !EmailTaken(s, dto.email)
    requires passwordMatches(password, passwordHash)
    requires dto.email != cfg.adminEmail || password != cfg.adminPassword
    ensures var s' := CreateUserStep(s, SuperAdmin, dto, passwordHash, newId).next;
      Authenticate(s', cfg, SignInDto(dto.email, password), passwordMatches) ==
      Ok(Claims(newId, dto.email, dto.role))
  {
    var s' := CreateUserStep(s, SuperAdmin, dto, passwordHash, newId).next;
    CreateUserPreservesValid(s, SuperAdmin, dto, passwordHash, newId);
    SignInFindsTheUser(s', cfg, SignInDto(dto.email, password), passwordMatches, newId);
  }

  lemma CreateUserPreservesValid(s: Snapshot, callerRole: Role, dto: CreateUserDto, passwordHash: string,
                                 newId: int)
    requires Valid(s) && newId > 0 && newId !in s.users
    ensures Valid(CreateUserStep(s, callerRole, dto, passwordHash, newId).next)
  {
  }

  // ---- The service operations that change the store ------------------------

  method SignIn(db: Database.Store, cfg: AuthConfig, dto: SignInDto,
                passwordMatches: (string, string) -> bool, rtHash: string) returns (r: Result<Claims>)
    requires db.Valid()
    modifies db
    ensures db.Valid()
    ensures var t := SignInStep(old(db.Snap()), cfg, dto, passwordMatches, rtHash);
      r == t.result && db.Snap() == t.next
    ensures db.nextUserId == old(db.nextUserId) && db.nextBrandId == old(db.nextBrandId)
  {
    SignInPreservesValid(db.Snap(), cfg, dto, passwordMatches, rtHash);
    if dto.email == cfg.adminEmail && dto.password == cfg.adminPassword {
      return Ok(Claims(AdminId, cfg.adminEmail, SuperAdmin));
    }
    if !EmailTaken(db.Snap(), dto.email) {
      return Err(Forbidden);
    }
    var id :| id in db.users && db.users[id].email == dto.email;
    var user := db.users[id];
    if !passwordMatches(dto.password, user.password) {
      return Err(Forbidden);
    }
    db.users := db.users[id := user.(refreshToken := Some(rtHash))];
    r := Ok(Claims(id, user.email, user.role));
  }

  method InviteUser(db: Database.Store, inviterId: int, dto: InviteUserDto,
                    tempPassword: string, tempHash: string) returns (r: Result<Invitation>)
    requires db.Valid()
    modifies db
    ensures db.Valid()
    ensures var t := InviteStep(old(db.Snap()), inviterId, dto, tempPassword, tempHash, old(db.nextUserId));
      r == t.result && db.Snap() == t.next
    ensures db.nextBrandId == old(db.nextBrandId)
    ensures db.nextUserId ==
      if r.Ok? || r == Err(Unhandled) then old(db.nextUserId) + 1 else old(db.nextUserId)
  {
    InvitePreservesValid(db.Snap(), inviterId, dto, tempPassword, tempHash, db.nextUserId);
    var role := InviteeRole(db.Snap(), inviterId);
    if role.Err? {
      return Err(role.error);
    }
    var id := db.nextUserId;
    db.nextUserId := id + 1;
    if EmailTaken(db.Snap(), dto.email) {
      return Err(Unhandled);
    }
    db.users := db.users[id := User(dto.email, tempHash, role.value, None, Some(Profile("Invited", "User", None)))];
    r := Ok(Invitation(dto.email, role.value, tempPassword));
  }

  method Logout(db: Database.Store, userId: int)
    requires db.Valid()
    modifies db
    ensures db.Valid()
    ensures db.Snap() == LogoutStep(old(db.Snap()), userId).next
    ensures db.nextUserId == old(db.nextUserId) && db.nextBrandId == old(db.nextBrandId)
  {
    LogoutPreservesValid(db.Snap(), userId);
    if userId in db.users && db.users[userId].refreshToken.Some? {
      db.users := db.users[userId := db.users[userId].(refreshToken := None)];
    }
  }

  method CreateUser(db: Database.Store, callerRole: Role, dto: CreateUserDto, passwordHash: string)
    returns (r: Result<NewUser>)
    requires db.Valid()
    modifies db
    ensures db.Valid()
    ensures var t := CreateUserStep(old(db.Snap()), callerRole, dto, passwordHash, old(db.nextUserId));
      r == t.result && db.Snap() == t.next
    ensures db.nextBrandId == old(db.nextBrandId)
    ensures db.nextUserId == if r.Ok? then old(db.nextUserId) + 1 else old(db.nextUserId)
  {
    CreateUserPreservesValid(db.Snap(), callerRole, dto, passwordHash, db.nextUserId);
    if callerRole != SuperAdmin || EmailTaken(db.Snap(), dto.email) {
      return Err(Forbidden);
    }
    var id := db.nextUserId;
    var profile := Profile(dto.firstName, dto.lastName, None);
    db.users := db.users[id := User(dto.email, passwordHash, dto.role, None, Some(profile))];
    db.nextUserId := id + 1;
    r := Ok(NewUser(id, dto.email, dto.role, profile));
  }
}
